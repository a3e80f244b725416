/**
 * Principal Limit Factor resolution: the fallback ladder of
 * `HECMCalculator.get_principal_limit_factor`. The database table and the
 * cached CSV dataset are passed in as snapshots.
 */
module PlfResolver {
  import opened Wrappers
  import opened Numbers

  /** A `PLFTable` row: the factor for (configuration, age, interest rate). */
  datatype DbRow = DbRow(configId: nat, age: int, interestRate: real, factor: real)

  /** A row of the CSV dataset (columns Age, Rate, PLF). */
  datatype CsvRow = CsvRow(age: int, rate: real, plf: real)

  /**
   * The data the resolver reads: the database rows and the CSV dataset,
   * `None` when it is not loaded or cannot be read.
   */
  datatype Tables = Tables(db: seq<DbRow>, csv: Option<seq<CsvRow>>)

  /** Which rung of the ladder produced the factor (the one the log line names). */
  datatype PlfSource =
    | Database(row: nat)
    | CsvExact(row: nat)
    | CsvNearest(row: nat)
    | Formula

  datatype Resolution = Resolution(factor: real, source: PlfSource)

  /** The database keeps (configuration, age, interest rate) unique. */
  predicate DbKeysUnique(db: seq<DbRow>) {
    forall i, j :: 0 <= i < j < |db| ==>
      !(db[i].configId == db[j].configId && db[i].age == db[j].age && db[i].interestRate == db[j].interestRate)
  }

  predicate DbMatches(row: DbRow, configId: nat, age: int, rate: real) {
    row.configId == configId && row.age == age && row.interestRate == rate
  }

  /** The CSV "exact" test: same age and a rate within 0.001. */
  predicate CsvMatches(row: CsvRow, age: int, rate: real) {
    row.age == age && Dist(row.rate, rate) < 0.001
  }

  /** The index of the first database row at or after `i` with the given key. */
  function FindDbRow(db: seq<DbRow>, configId: nat, age: int, rate: real, i: nat): (r: Option<nat>)
    requires i <= |db|
    ensures r.Some? ==>
      && i <= r.value < |db| && DbMatches(db[r.value], configId, age, rate)
      && forall j :: i <= j < r.value ==> !DbMatches(db[j], configId, age, rate)
    ensures r.None? ==> forall j :: i <= j < |db| ==> !DbMatches(db[j], configId, age, rate)
    decreases |db| - i
  {
    if i == |db| then None
    else if DbMatches(db[i], configId, age, rate) then Some(i)
    else FindDbRow(db, configId, age, rate, i + 1)
  }

  /** The index of the first CSV row at or after `i` that matches (age, rate) within the tolerance. */
  function FindCsvExact(rows: seq<CsvRow>, age: int, rate: real, i: nat): (r: Option<nat>)
    requires i <= |rows|
    ensures r.Some? ==>
      && i <= r.value < |rows| && CsvMatches(rows[r.value], age, rate)
      && forall j :: i <= j < r.value ==> !CsvMatches(rows[j], age, rate)
    ensures r.None? ==> forall j :: i <= j < |rows| ==> !CsvMatches(rows[j], age, rate)
    decreases |rows| - i
  {
    if i == |rows| then None
    else if CsvMatches(rows[i], age, rate) then Some(i)
    else FindCsvExact(rows, age, rate, i + 1)
  }

  /**
   * The first row of the given age whose rate is nearest to `rate`: pandas'
   * `idxmin` over the age-filtered rows, which keeps the earliest of several
   * equal minima. Defined by the running minimum over ever longer prefixes.
   */
  function NearestRow(rows: seq<CsvRow>, age: int, rate: real): (r: Option<nat>)
    ensures r.Some? <==> exists j :: 0 <= j < |rows| && rows[j].age == age
    ensures r.Some? ==>
      && r.value < |rows| && rows[r.value].age == age
      && (forall j :: 0 <= j < |rows| && rows[j].age == age ==>
            Dist(rows[r.value].rate, rate) <= Dist(rows[j].rate, rate))
      && (forall j :: 0 <= j < r.value && rows[j].age == age ==>
            Dist(rows[r.value].rate, rate) < Dist(rows[j].rate, rate))
    decreases |rows|
  {
    if |rows| == 0 then None
    else
      var n := |rows|;
      var best := NearestRow(rows[..n - 1], age, rate);
      if rows[n - 1].age == age
         && (best.None? || Dist(rows[n - 1].rate, rate) < Dist(rows[best.value].rate, rate))
      then Some(n - 1)
      else best
  }

  /**
   * The running-minimum scan over the age-filtered rows, written as the loop
   * it is; it finds the row `NearestRow` specifies.
   */
  method ScanNearest(rows: seq<CsvRow>, age: int, rate: real) returns (best: Option<nat>)
    ensures best == NearestRow(rows, age, rate)
  {
    best := None;
    var bestDiff := 0.0;
    for i := 0 to |rows|
      invariant best == NearestRow(rows[..i], age, rate)
      invariant best.Some? ==> best.value < i && bestDiff == Dist(rows[best.value].rate, rate)
    {
      assert rows[..i + 1][..i] == rows[..i];
      if rows[i].age == age {
        var diff := Dist(rows[i].rate, rate);
        if best.None? || diff < bestDiff {
          best, bestDiff := Some(i), diff;
        }
      }
    }
    assert rows[..|rows|] == rows;
  }

  /** The closed-form approximation used when no table row applies. */
  function Approximation(age: int, rate: real): (f: real)
    ensures 0.2 <= f <= 0.75
  {
    var baseFactor := Min(0.75, (age as real - 62.0) * 0.005 + 0.35);
    var rateAdjustment := Max(0.0, (rate - 5.0) * 0.1);
    Max(0.2, baseFactor - rateAdjustment)
  }

  /**
   * The ladder: an exact database row for (configuration, age, rate); else
   * an exact CSV row; else the nearest-rate CSV row of the same age; else the
   * formula. It never fails on a lookup miss. The order of the rungs is
   * stated by the lemmas that follow.
   */
  function Resolve(t: Tables, configId: nat, age: int, rate: real): (r: Resolution)
    requires DbKeysUnique(t.db)
    ensures r.source.Database? ==>
      && r.source.row < |t.db| && DbMatches(t.db[r.source.row], configId, age, rate)
      && r.factor == t.db[r.source.row].factor
    ensures r.source.CsvExact? ==>
      && t.csv.Some? && r.source.row < |t.csv.value|
      && CsvMatches(t.csv.value[r.source.row], age, rate)
      && r.factor == t.csv.value[r.source.row].plf
    ensures r.source.CsvNearest? ==>
      && t.csv.Some? && r.source.row < |t.csv.value| && t.csv.value[r.source.row].age == age
      && r.factor == t.csv.value[r.source.row].plf
    ensures r.source.Formula? ==> r.factor == Approximation(age, rate)
  {
    match FindDbRow(t.db, configId, age, rate, 0)
    case Some(i) => Resolution(t.db[i].factor, Database(i))
    case None =>
      if t.csv.Some? && |t.csv.value| > 0 then
        var rows := t.csv.value;
        match FindCsvExact(rows, age, rate, 0)
        case Some(j) => Resolution(rows[j].plf, CsvExact(j))
        case None =>
          match NearestRow(rows, age, rate)
          case Some(k) => Resolution(rows[k].plf, CsvNearest(k))
          case None => Resolution(Approximation(age, rate), Formula)
      else Resolution(Approximation(age, rate), Formula)
  }

  predicate NoDbMatch(t: Tables, configId: nat, age: int, rate: real) {
    forall i :: 0 <= i < |t.db| ==> !DbMatches(t.db[i], configId, age, rate)
  }

  /** A database row for the exact key wins over every CSV row and the formula. */
  lemma ResolvePrefersDatabase(t: Tables, configId: nat, age: int, rate: real, i: nat)
    requires DbKeysUnique(t.db)
    requires i < |t.db| && DbMatches(t.db[i], configId, age, rate)
    ensures Resolve(t, configId, age, rate) == Resolution(t.db[i].factor, Database(i))
  {
    var k := FindDbRow(t.db, configId, age, rate, 0);
    assert k.Some?;
  }

  /**
   * Without a database row, the first CSV row matching age and rate wins
   * over the nearest-rate search.
   */
  lemma ResolvePrefersCsvExact(t: Tables, configId: nat, age: int, rate: real, j: nat)
    requires DbKeysUnique(t.db) && NoDbMatch(t, configId, age, rate)
    requires t.csv.Some? && j < |t.csv.value| && CsvMatches(t.csv.value[j], age, rate)
    requires forall k :: 0 <= k < j ==> !CsvMatches(t.csv.value[k], age, rate)
    ensures Resolve(t, configId, age, rate) == Resolution(t.csv.value[j].plf, CsvExact(j))
  {
    var k := FindCsvExact(t.csv.value, age, rate, 0);
    assert k.Some?;
  }

  /**
   * The nearest-rate rung answers only when no database row and no exact CSV
   * row exist, and then with the first row of the same age whose rate is
   * nearest.
   */
  lemma ResolveNearestIsFirstMinimum(t: Tables, configId: nat, age: int, rate: real)
    requires DbKeysUnique(t.db)
    requires Resolve(t, configId, age, rate).source.CsvNearest?
    ensures NoDbMatch(t, configId, age, rate) && t.csv.Some?
    ensures forall j :: 0 <= j < |t.csv.value| ==> !CsvMatches(t.csv.value[j], age, rate)
    ensures
      var rows, k := t.csv.value, Resolve(t, configId, age, rate).source.row;
      && k < |rows| && rows[k].age == age
      && (forall j :: 0 <= j < |rows| && rows[j].age == age ==> Dist(rows[k].rate, rate) <= Dist(rows[j].rate, rate))
      && (forall j :: 0 <= j < k && rows[j].age == age ==> Dist(rows[k].rate, rate) < Dist(rows[j].rate, rate))
  {
  }

  /** The formula is used exactly when no database row matches and no CSV row has that age. */
  lemma ResolveFormulaExactlyWithoutAgeRows(t: Tables, configId: nat, age: int, rate: real)
    requires DbKeysUnique(t.db)
    ensures Resolve(t, configId, age, rate).source.Formula? <==>
      && NoDbMatch(t, configId, age, rate)
      && (t.csv.None? || forall j :: 0 <= j < |t.csv.value| ==> t.csv.value[j].age != age)
  {
    if NoDbMatch(t, configId, age, rate) && t.csv.Some? && |t.csv.value| > 0 {
      var rows := t.csv.value;
      var exact := FindCsvExact(rows, age, rate, 0);
      if exact.Some? {
        assert rows[exact.value].age == age;
      }
    }
  }

  /** Age 70 at 5.5 per cent: base 0.39, adjustment 0.05, factor 0.34. */
  lemma ApproximationExample()
    ensures Approximation(70, 5.5) == 0.34
  {
  }

  /** For a fixed age the approximate factor never increases as the rate rises. */
  lemma ApproximationAntitoneInRate(age: int, r1: real, r2: real)
    requires r1 <= r2
    ensures Approximation(age, r2) <= Approximation(age, r1)
  {
  }

  /** For a fixed rate the approximate factor never decreases as the age rises. */
  lemma ApproximationMonotoneInAge(a1: int, a2: int, rate: real)
    requires a1 <= a2
    ensures Approximation(a1, rate) <= Approximation(a2, rate)
  {
  }

  predicate FactorsInRange(t: Tables) {
    && (forall i :: 0 <= i < |t.db| ==> 0.2 <= t.db[i].factor <= 0.75)
    && (t.csv.Some? ==> forall j :: 0 <= j < |t.csv.value| ==> 0.2 <= t.csv.value[j].plf <= 0.75)
  }

  /**
   * Whatever rung answers, the factor lies in [0.2, 0.75] provided the
   * table data does; the formula alone guarantees it unconditionally.
   */
  lemma ResolvedFactorInRange(t: Tables, configId: nat, age: int, rate: real)
    requires DbKeysUnique(t.db)
    ensures FactorsInRange(t) ==> 0.2 <= Resolve(t, configId, age, rate).factor <= 0.75
  {
    var r := Resolve(t, configId, age, rate);
    match r.source
    case Database(i) =>
      var k := FindDbRow(t.db, configId, age, rate, 0);
      assert k.Some? && r.source.row == k.value;
    case CsvExact(j) =>
    case CsvNearest(j) =>
    case Formula =>
  }

  /**
   * With every rate stored to three decimals, the CSV tolerance test is an
   * exact comparison of age and rate.
   */
  lemma CsvMatchIsExact(rows: seq<CsvRow>, age: int, rate: real)
    requires Thousandths(rate)
    requires forall j :: 0 <= j < |rows| ==> Thousandths(rows[j].rate)
    ensures forall j :: 0 <= j < |rows| ==>
      (CsvMatches(rows[j], age, rate) <==> rows[j].age == age && rows[j].rate == rate)
  {
    forall j | 0 <= j < |rows|
      ensures CsvMatches(rows[j], age, rate) <==> rows[j].age == age && rows[j].rate == rate
    {
      ToleranceIsEquality(rows[j].rate, rate);
    }
  }

  /** Rows of other ages appended to the dataset never change the nearest-rate pick. */
  lemma {:induction false} NearestIgnoresOtherAges(rows: seq<CsvRow>, extra: seq<CsvRow>, age: int, rate: real)
    requires forall j :: 0 <= j < |extra| ==> extra[j].age != age
    ensures NearestRow(rows + extra, age, rate) == NearestRow(rows, age, rate)
    decreases |extra|
  {
    if extra == [] {
      assert rows + extra == rows;
    } else {
      var init := extra[..|extra| - 1];
      var all := rows + extra;
      assert all[|all| - 1] == extra[|extra| - 1];
      assert NearestRow(all, age, rate) == NearestRow(all[..|all| - 1], age, rate);
      assert all[..|all| - 1] == rows + init;
      NearestIgnoresOtherAges(rows, init, age, rate);
    }
  }
}
