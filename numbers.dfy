/**
 * Exact decimal arithmetic. Python's `Decimal` values at the magnitudes the
 * calculator uses are exact, so they are modelled by Dafny's `real`.
 */
module Numbers {

  /** Python's `min(a, b)` on two decimals. */
  function Min(a: real, b: real): (r: real)
    ensures r <= a && r <= b
    ensures r == a || r == b
  {
    if b < a then b else a
  }

  /** Python's `max(a, b)` on two decimals. */
  function Max(a: real, b: real): (r: real)
    ensures a <= r && b <= r
    ensures r == a || r == b
  {
    if b > a then b else a
  }

  /** `abs(a - b)`: how far apart two rates are. */
  function Dist(a: real, b: real): (r: real)
    ensures r >= 0.0
    ensures r == 0.0 <==> a == b
    ensures r >= a - b && r >= b - a
  {
    if a >= b then a - b else b - a
  }

  /** A rate stored with three decimal places (the precision of every rate column). */
  predicate Thousandths(x: real) {
    (x * 1000.0).Floor as real == x * 1000.0
  }

  /**
   * On rates with three decimals, the tolerance `abs(a - b) < 0.001` that
   * the CSV lookup uses is exact equality.
   */
  lemma ToleranceIsEquality(a: real, b: real)
    requires Thousandths(a) && Thousandths(b)
    ensures Dist(a, b) < 0.001 <==> a == b
  {
    var m, n := (a * 1000.0).Floor, (b * 1000.0).Floor;
    assert a == m as real / 1000.0 && b == n as real / 1000.0;
    if m != n {
      assert m - n >= 1 || n - m >= 1;
      assert Dist(a, b) == Dist(m as real, n as real) / 1000.0;
    }
  }
}
