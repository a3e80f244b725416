/**
 * The versioned bundle of regulatory constants a calculation runs against
 * (the `HECMConfig` record). Rates are fractions: 0.02 means two per cent.
 */
module Config {

  datatype Date = Date(year: int, month: int, day: int)

  /** One configuration row; `id` is its primary key, which PLF table rows refer to. */
  datatype HecmConfig = HecmConfig(
    id: nat,
    effectiveDate: Date,
    fhaLendingLimit: real,
    minAge: int,
    mipRate: real,
    originationFeeMin: real,
    originationFeeCap: real,
    firstTierLimit: real,
    firstTierRate: real,
    secondTierRate: real)

  /** The invariant the fee bounds assume of a configuration; the database does not enforce it. */
  predicate WellFormed(c: HecmConfig) {
    && c.minAge >= 0
    && c.fhaLendingLimit > 0.0
    && c.originationFeeMin <= c.originationFeeCap
    && 0.0 <= c.firstTierRate <= 1.0
    && 0.0 <= c.secondTierRate <= 1.0
  }

  /** The configuration created when none exists yet; `id` is the key the database assigns it. */
  function DefaultConfig(id: nat): (c: HecmConfig)
    ensures WellFormed(c)
    ensures c.minAge == 62 && c.fhaLendingLimit == 1089300.0
    ensures c.originationFeeMin == 2500.0 && c.originationFeeCap == 6000.0
  {
    HecmConfig(
      id := id,
      effectiveDate := Date(2025, 1, 1),
      fhaLendingLimit := 1089300.0,
      minAge := 62,
      mipRate := 0.02,
      originationFeeMin := 2500.0,
      originationFeeCap := 6000.0,
      firstTierLimit := 200000.0,
      firstTierRate := 0.02,
      secondTierRate := 0.01)
  }
}
