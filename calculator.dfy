/**
 * The HECM calculation engine (`HECMCalculator`): reconciliation of rate and
 * margin, the derived money figures, `calculate` and `recalculate_with_margin`.
 * A calculator is an immutable value; the PLF data it reads is passed in.
 */
module Calculator {
  import opened Wrappers
  import opened Numbers
  import opened Config
  import opened Inputs
  import opened PlfResolver

  /** Index rate assumed when none is known (per cent). */
  const DefaultIndexRate: real := 3.50
  /** Margin assumed when none is given (per cent). */
  const DefaultMargin: real := 2.00
  /** The fixed estimate of appraisal, title and other closing costs. */
  const OtherCostsEstimate: real := 3000.00

  /**
   * The dictionary a caller passes in. The interest rate and the margin are
   * optional keys; `None` stands for an absent key.
   */
  datatype InputDict = InputDict(
    age: int,
    homeValue: real,
    interestRate: Option<real>,
    existingMortgage: real,
    margin: Option<real>)

  /** The input a calculator works on: the stored fields plus the margin, if known. */
  datatype NormalisedInput = NormalisedInput(loan: HecmInput, margin: Option<real>)

  /** What the constructor accepts: a dictionary, or an already built input record. */
  datatype InputData = FromDict(dict: InputDict) | FromRecord(record: HecmInput)

  /** A constructed `HECMCalculator`: its input, its configuration and its index rate. */
  datatype Calculator = Calculator(input: NormalisedInput, config: HecmConfig, indexRate: Option<real>)

  /** The reconciled input and the index rate the calculator keeps. */
  datatype Reconciled = Reconciled(input: NormalisedInput, indexRate: Option<real>)

  /** The figures `calculate` returns. */
  datatype CalcResult = CalcResult(
    input: NormalisedInput,
    configUsed: HecmConfig,
    maxClaimAmount: real,
    principalLimitFactor: real,
    principalLimit: real,
    originationFee: real,
    mortgageInsurancePremium: real,
    otherClosingCosts: real,
    totalClosingCosts: real,
    maxCashOut: real,
    margin: real,
    indexRate: real)

  /** Python's `x or default` on an optional decimal: `None` and zero are both falsy. */
  function OrDefault(x: Option<real>, default: real): (r: real)
    ensures x.Some? && x.value != 0.0 ==> r == x.value
    ensures x.None? || x.value == 0.0 ==> r == default
  {
    if x.Some? && x.value != 0.0 then x.value else default
  }

  // ---------------------------------------------------------------------
  // Rate/margin reconciliation

  /**
   * The constructor's treatment of a dictionary: a margin without a rate
   * yields rate = index (3.50 when none is given) + margin; a rate and an
   * index without a margin yield margin = rate - index; any other missing
   * margin becomes 2.00. A given rate or margin is never overwritten.
   */
  function Reconcile(d: InputDict, indexRate: Option<real>): (r: Reconciled)
    ensures r.input.margin.Some?
    ensures r.input.loan.age == d.age && r.input.loan.homeValue == d.homeValue
    ensures r.input.loan.existingMortgage == d.existingMortgage
    ensures d.interestRate.Some? ==> r.input.loan.interestRate == d.interestRate
    ensures d.margin.Some? ==> r.input.margin == d.margin
    ensures r.input.loan.interestRate.None? <==> d.interestRate.None? && d.margin.None?
    ensures indexRate.Some? ==> r.indexRate == indexRate
    // whenever a figure was derived and the index is known, rate = index + margin
    ensures (d.interestRate.None? || d.margin.None?) && r.indexRate.Some? && r.input.loan.interestRate.Some? ==>
      r.input.loan.interestRate.value == r.indexRate.value + r.input.margin.value
  {
    var loan := HecmInput(d.age, d.homeValue, d.interestRate, d.existingMortgage);
    if d.margin.Some? && d.interestRate.None? then
      var index := indexRate.GetOr(DefaultIndexRate);
      Reconciled(NormalisedInput(loan.(interestRate := Some(index + d.margin.value)), d.margin), Some(index))
    else if d.interestRate.Some? && d.margin.None? && indexRate.Some? then
      Reconciled(NormalisedInput(loan, Some(d.interestRate.value - indexRate.value)), indexRate)
    else if d.margin.None? then
      Reconciled(NormalisedInput(loan, Some(DefaultMargin)), indexRate)
    else
      Reconciled(NormalisedInput(loan, d.margin), indexRate)
  }

  /**
   * `HECMCalculator(input_data, config, index_rate)`. `current` is the
   * configuration the store reports as current, used when none is given.
   * A ready-made record carries no margin.
   */
  function NewCalculator(data: InputData, config: Option<HecmConfig>, current: HecmConfig, indexRate: Option<real>): (c: Calculator)
    ensures c.config == (if config.Some? then config.value else current)
    ensures data.FromRecord? ==> c.input == NormalisedInput(data.record, None) && c.indexRate == indexRate
    ensures data.FromDict? ==> c.input.margin.Some? && (indexRate.Some? ==> c.indexRate == indexRate)
    ensures data.FromDict? ==>
      c.input == Reconcile(data.dict, indexRate).input && c.indexRate == Reconcile(data.dict, indexRate).indexRate
  {
    var cfg := if config.Some? then config.value else current;
    match data
    case FromDict(d) =>
      var r := Reconcile(d, indexRate);
      Calculator(r.input, cfg, r.indexRate)
    case FromRecord(rec) =>
      Calculator(NormalisedInput(rec, None), cfg, indexRate)
  }

  lemma ReconcileRateFromMargin(d: InputDict, indexRate: Option<real>)
    requires d.margin.Some? && d.interestRate.None?
    ensures Reconcile(d, indexRate).input.loan.interestRate == Some(indexRate.GetOr(3.50) + d.margin.value)
    ensures Reconcile(d, indexRate).input.margin == d.margin
  {
  }

  lemma ReconcileMarginFromRate(d: InputDict, index: real)
    requires d.interestRate.Some? && d.margin.None?
    ensures Reconcile(d, Some(index)).input.margin == Some(d.interestRate.value - index)
    ensures Reconcile(d, Some(index)).input.loan.interestRate == d.interestRate
  {
  }

  lemma ReconcileDefaultMargin(d: InputDict, indexRate: Option<real>)
    requires d.margin.None? && (d.interestRate.None? || indexRate.None?)
    ensures Reconcile(d, indexRate).input.margin == Some(2.00)
    ensures Reconcile(d, indexRate).input.loan.interestRate == d.interestRate
  {
  }

  /** A dictionary with both a rate and a margin passes through unchanged. */
  lemma ReconcileComplete(d: InputDict, indexRate: Option<real>)
    requires d.interestRate.Some? && d.margin.Some?
    ensures Reconcile(d, indexRate) ==
      Reconciled(NormalisedInput(HecmInput(d.age, d.homeValue, d.interestRate, d.existingMortgage), d.margin), indexRate)
  {
  }

  /**
   * Deriving the rate from margin m and index x, then deriving the margin
   * back from that rate and x, returns m exactly.
   */
  lemma ReconcileRoundTrip(d: InputDict, m: real, x: real)
    requires d.margin == Some(m) && d.interestRate.None?
    ensures
      var rate := Reconcile(d, Some(x)).input.loan.interestRate;
      rate.Some? && Reconcile(d.(interestRate := rate, margin := None), Some(x)).input.margin == Some(m)
  {
  }

  // ---------------------------------------------------------------------
  // Derived money figures

  /** The lesser of the home value and the lending limit. */
  function MaxClaimAmount(loan: HecmInput, cfg: HecmConfig): (r: real)
    ensures r <= loan.homeValue && r <= cfg.fhaLendingLimit
    ensures r == loan.homeValue || r == cfg.fhaLendingLimit
  {
    Min(loan.homeValue, cfg.fhaLendingLimit)
  }

  /**
   * The tiered origination fee: up to the first-tier limit, the first-tier
   * rate with the minimum fee as a floor; above it, the first tier at its
   * rate plus the excess at the second-tier rate; then capped.
   */
  function OriginationFee(loan: HecmInput, cfg: HecmConfig): (r: real)
    ensures r <= cfg.originationFeeCap
    ensures loan.homeValue <= cfg.firstTierLimit && cfg.originationFeeMin <= cfg.originationFeeCap ==>
      cfg.originationFeeMin <= r
    ensures loan.homeValue <= cfg.firstTierLimit ==>
      r == cfg.originationFeeCap || r == cfg.originationFeeMin || r == loan.homeValue * cfg.firstTierRate
  {
    var fee :=
      if loan.homeValue <= cfg.firstTierLimit then
        Max(cfg.originationFeeMin, loan.homeValue * cfg.firstTierRate)
      else
        cfg.firstTierLimit * cfg.firstTierRate + (loan.homeValue - cfg.firstTierLimit) * cfg.secondTierRate;
    Min(fee, cfg.originationFeeCap)
  }

  /** The upfront mortgage insurance premium on the max claim amount. */
  function MortgageInsurancePremium(loan: HecmInput, cfg: HecmConfig): (r: real)
    ensures r == loan.homeValue * cfg.mipRate || r == cfg.fhaLendingLimit * cfg.mipRate
    ensures cfg.mipRate >= 0.0 ==> r <= loan.homeValue * cfg.mipRate && r <= cfg.fhaLendingLimit * cfg.mipRate
  {
    MaxClaimAmount(loan, cfg) * cfg.mipRate
  }

  /** Other closing costs: a fixed estimate, whatever the input. */
  function OtherClosingCosts(): (r: real)
    ensures r == 3000.00
  {
    OtherCostsEstimate
  }

  function TotalClosingCosts(loan: HecmInput, cfg: HecmConfig): (r: real)
    ensures r == OriginationFee(loan, cfg) + MortgageInsurancePremium(loan, cfg) + 3000.00
    ensures r <= cfg.originationFeeCap + MortgageInsurancePremium(loan, cfg) + 3000.00
  {
    OriginationFee(loan, cfg) + MortgageInsurancePremium(loan, cfg) + OtherClosingCosts()
  }

  /** The engine needs an interest rate; without one the source raises a TypeError. */
  predicate Computable(c: Calculator) {
    c.input.loan.interestRate.Some?
  }

  /** The factor for the calculator's age and rate, under its configuration. */
  function PrincipalLimitFactor(c: Calculator, t: Tables): (r: real)
    requires Computable(c) && DbKeysUnique(t.db)
    ensures FactorsInRange(t) ==> 0.2 <= r <= 0.75
  {
    ResolvedFactorInRange(t, c.config.id, c.input.loan.age, c.input.loan.interestRate.value);
    Resolve(t, c.config.id, c.input.loan.age, c.input.loan.interestRate.value).factor
  }

  /** The principal limit: the share of the max claim the factor allows. */
  function PrincipalLimit(c: Calculator, t: Tables): (r: real)
    requires Computable(c) && DbKeysUnique(t.db)
    ensures r == MaxClaimAmount(c.input.loan, c.config) * PrincipalLimitFactor(c, t)
    ensures FactorsInRange(t) && MaxClaimAmount(c.input.loan, c.config) >= 0.0 ==>
      0.2 * MaxClaimAmount(c.input.loan, c.config) <= r <= 0.75 * MaxClaimAmount(c.input.loan, c.config)
  {
    var maxClaim := MaxClaimAmount(c.input.loan, c.config);
    var plf := PrincipalLimitFactor(c, t);
    assert FactorsInRange(t) && maxClaim >= 0.0 ==> 0.2 * maxClaim <= maxClaim * plf <= 0.75 * maxClaim;
    maxClaim * plf
  }

  /** What is left after paying off the mortgage and the closing costs, never negative. */
  function MaxCashOut(c: Calculator, t: Tables): (r: real)
    requires Computable(c) && DbKeysUnique(t.db)
    ensures r >= 0.0
    ensures
      var rest := PrincipalLimit(c, t) - c.input.loan.existingMortgage - TotalClosingCosts(c.input.loan, c.config);
      (rest >= 0.0 ==> r == rest) && (rest < 0.0 ==> r == 0.0)
  {
    Max(0.0, PrincipalLimit(c, t) - c.input.loan.existingMortgage - TotalClosingCosts(c.input.loan, c.config))
  }

  // ---------------------------------------------------------------------
  // calculate and recalculate_with_margin

  /** `calculate`: every figure, with the echoed margin and index rate. */
  function Calculate(c: Calculator, t: Tables): (r: CalcResult)
    requires Computable(c) && DbKeysUnique(t.db)
    ensures r.input == c.input && r.configUsed == c.config
    ensures r.maxClaimAmount <= c.input.loan.homeValue && r.maxClaimAmount <= c.config.fhaLendingLimit
    ensures r.originationFee <= c.config.originationFeeCap
    ensures r.otherClosingCosts == 3000.00
    ensures r.maxCashOut >= 0.0
    ensures r.margin == c.input.margin.GetOr(2.00)
    ensures r.indexRate == OrDefault(c.indexRate, 3.50)
  {
    CalcResult(
      input := c.input,
      configUsed := c.config,
      maxClaimAmount := MaxClaimAmount(c.input.loan, c.config),
      principalLimitFactor := PrincipalLimitFactor(c, t),
      principalLimit := PrincipalLimit(c, t),
      originationFee := OriginationFee(c.input.loan, c.config),
      mortgageInsurancePremium := MortgageInsurancePremium(c.input.loan, c.config),
      otherClosingCosts := OtherClosingCosts(),
      totalClosingCosts := TotalClosingCosts(c.input.loan, c.config),
      maxCashOut := MaxCashOut(c, t),
      margin := c.input.margin.GetOr(DefaultMargin),
      indexRate := OrDefault(c.indexRate, DefaultIndexRate))
  }

  /**
   * The figures of a result agree with each other and with the formulas:
   * max claim = min(home value, lending limit), fee = the tiered origination
   * fee, principal limit = max claim x factor, premium = max claim x premium
   * rate, and closing costs = fee + premium + other costs.
   */
  lemma CalculatedFiguresAgree(c: Calculator, t: Tables)
    requires Computable(c) && DbKeysUnique(t.db)
    ensures
      var r := Calculate(c, t);
      && r.maxClaimAmount == MaxClaimAmount(c.input.loan, c.config)
      && r.originationFee == OriginationFee(c.input.loan, c.config)
      && r.principalLimit == r.maxClaimAmount * r.principalLimitFactor
      && r.mortgageInsurancePremium == r.maxClaimAmount * c.config.mipRate
      && r.totalClosingCosts == r.originationFee + r.mortgageInsurancePremium + r.otherClosingCosts
  {
    var loan, cfg := c.input.loan, c.config;
    var r := Calculate(c, t);
    assert r.maxClaimAmount == MaxClaimAmount(loan, cfg) && r.principalLimitFactor == PrincipalLimitFactor(c, t);
    assert r.principalLimit == PrincipalLimit(c, t);
    assert r.mortgageInsurancePremium == MortgageInsurancePremium(loan, cfg);
    assert r.totalClosingCosts == TotalClosingCosts(loan, cfg);
  }

  /**
   * The cash out of a result is what remains of the principal limit after
   * the existing mortgage and the closing costs, or 0 when nothing remains.
   */
  lemma CalculatedCashOut(c: Calculator, t: Tables)
    requires Computable(c) && DbKeysUnique(t.db)
    ensures
      var r := Calculate(c, t);
      var rest := r.principalLimit - c.input.loan.existingMortgage - r.totalClosingCosts;
      (rest >= 0.0 ==> r.maxCashOut == rest) && (rest < 0.0 ==> r.maxCashOut == 0.0)
  {
    var r := Calculate(c, t);
    assert r.principalLimit == PrincipalLimit(c, t);
    assert r.totalClosingCosts == TotalClosingCosts(c.input.loan, c.config) && r.maxCashOut == MaxCashOut(c, t);
  }

  /**
   * The factor in a result is the resolver's answer for the input's age and
   * rate under the calculator's configuration, and with table data in
   * [0.2, 0.75] the principal limit is between 20 and 75 per cent of the max
   * claim.
   */
  lemma CalculatedFactor(c: Calculator, t: Tables)
    requires Computable(c) && DbKeysUnique(t.db)
    ensures Calculate(c, t).principalLimitFactor ==
      Resolve(t, c.config.id, c.input.loan.age, c.input.loan.interestRate.value).factor
    ensures FactorsInRange(t) && Calculate(c, t).maxClaimAmount >= 0.0 ==>
      && 0.2 <= Calculate(c, t).principalLimitFactor <= 0.75
      && 0.2 * Calculate(c, t).maxClaimAmount <= Calculate(c, t).principalLimit <= 0.75 * Calculate(c, t).maxClaimAmount
  {
  }

  /** A calculation, or the validation error that forbids it. */
  datatype CalcOutcome = Calculated(result: CalcResult) | Rejected(error: ValidationError)

  /**
   * Validation before calculation: `clean` with the given minimum age, and
   * `calculate` only when every check passes.
   */
  function Validated(c: Calculator, t: Tables, minAge: int): (r: CalcOutcome)
    requires DbKeysUnique(t.db)
    ensures r.Rejected? <==> Clean(c.input.loan, minAge).Fail?
    ensures r.Rejected? ==> r.error == Clean(c.input.loan, minAge).error
    ensures r.Calculated? ==> Computable(c) && r.result == Calculate(c, t)
  {
    match Clean(c.input.loan, minAge)
    case Fail(e) => Rejected(e)
    case Pass => Calculated(Calculate(c, t))
  }

  /** The index `recalculate_with_margin` uses: the one given, else the stored one, else 3.50. */
  function RecalculationIndex(c: Calculator, indexRate: Option<real>): (r: real)
    ensures indexRate.Some? ==> r == indexRate.value
    ensures indexRate.None? && c.indexRate.Some? && c.indexRate.value != 0.0 ==> r == c.indexRate.value
    ensures indexRate.None? && (c.indexRate.None? || c.indexRate.value == 0.0) ==> r == 3.50
  {
    if indexRate.Some? then indexRate.value else OrDefault(c.indexRate, DefaultIndexRate)
  }

  /**
   * The calculator `recalculate_with_margin` builds: the same age, home value,
   * mortgage and configuration, interest rate = index + new margin.
   */
  function Recalculated(c: Calculator, margin: real, indexRate: Option<real>): (r: Calculator)
    ensures Computable(r)
    ensures r.input.loan.age == c.input.loan.age && r.input.loan.homeValue == c.input.loan.homeValue
    ensures r.input.loan.existingMortgage == c.input.loan.existingMortgage
    ensures r.config == c.config
    ensures r.input.margin == Some(margin)
    ensures r.indexRate == Some(RecalculationIndex(c, indexRate))
    ensures r.input.loan.interestRate == Some(RecalculationIndex(c, indexRate) + margin)
  {
    var index := RecalculationIndex(c, indexRate);
    var dict := InputDict(c.input.loan.age, c.input.loan.homeValue, Some(index + margin), c.input.loan.existingMortgage, Some(margin));
    ReconcileComplete(dict, Some(index));
    NewCalculator(FromDict(dict), Some(c.config), c.config, Some(index))
  }

  /** `recalculate_with_margin`: a full calculation of the recalculated input. */
  function RecalculateWithMargin(c: Calculator, t: Tables, margin: real, indexRate: Option<real>): (r: CalcResult)
    requires DbKeysUnique(t.db)
    ensures r.input.loan.age == c.input.loan.age && r.input.loan.homeValue == c.input.loan.homeValue
    ensures r.input.loan.existingMortgage == c.input.loan.existingMortgage
    ensures r.input.loan.interestRate == Some(RecalculationIndex(c, indexRate) + margin)
    ensures r.margin == margin
  {
    Calculate(Recalculated(c, margin, indexRate), t)
  }

  // ---------------------------------------------------------------------
  // Properties across several calls

  /**
   * Recalculating a recalculated calculator with the same margin and no new
   * index changes nothing, provided the index in force is not zero.
   */
  lemma RecalculationIdempotent(c: Calculator, t: Tables, margin: real, indexRate: Option<real>)
    requires DbKeysUnique(t.db)
    requires RecalculationIndex(c, indexRate) != 0.0
    ensures Recalculated(Recalculated(c, margin, indexRate), margin, None) == Recalculated(c, margin, indexRate)
    ensures RecalculateWithMargin(Recalculated(c, margin, indexRate), t, margin, None) ==
      RecalculateWithMargin(c, t, margin, indexRate)
  {
    var once := Recalculated(c, margin, indexRate);
    assert RecalculationIndex(once, None) == RecalculationIndex(c, indexRate);
  }

  /**
   * With a zero index the stored index reads as "none" (`0 or 3.50`), so a
   * second recalculation moves the rate from 0 + margin to 3.50 + margin.
   */
  lemma RecalculationZeroIndexDrifts(c: Calculator, margin: real)
    ensures Recalculated(c, margin, Some(0.0)).input.loan.interestRate == Some(margin)
    ensures Recalculated(Recalculated(c, margin, Some(0.0)), margin, None).input.loan.interestRate == Some(3.50 + margin)
  {
  }

  /**
   * When the rate is derived from a margin, the reported index and margin
   * add up to the rate, unless the index given is zero.
   */
  lemma ReportedRateIsIndexPlusMargin(d: InputDict, cfg: HecmConfig, t: Tables, indexRate: Option<real>)
    requires DbKeysUnique(t.db)
    requires d.margin.Some? && d.interestRate.None?
    requires indexRate.None? || indexRate.value != 0.0
    ensures
      var c := NewCalculator(FromDict(d), Some(cfg), cfg, indexRate);
      Computable(c) &&
      var r := Calculate(c, t);
      r.input.loan.interestRate == Some(r.indexRate + r.margin)
  {
  }

  /** With a zero index the result reports 3.50 although the rate was derived from 0. */
  lemma ZeroIndexReportedAsDefault(d: InputDict, cfg: HecmConfig, t: Tables)
    requires DbKeysUnique(t.db)
    requires d.margin.Some? && d.interestRate.None?
    ensures
      var c := NewCalculator(FromDict(d), Some(cfg), cfg, Some(0.0));
      Computable(c) &&
      var r := Calculate(c, t);
      r.input.loan.interestRate == Some(d.margin.value) && r.indexRate == 3.50 && r.margin == d.margin.value
  {
  }

  /** An under-age borrower is rejected before any figure is computed. */
  lemma UnderageRejected(c: Calculator, t: Tables)
    requires DbKeysUnique(t.db)
    requires c.input.loan.age < c.config.minAge
    ensures Validated(c, t, c.config.minAge) == Rejected(AgeBelowMinimum(c.config.minAge))
  {
  }

  /** Under the default configuration: 150000 pays max(2500, 3000) = 3000; 400000 pays min(4000 + 2000, 6000) = 6000. */
  lemma OriginationFeeExamples(id: nat)
    ensures OriginationFee(HecmInput(70, 150000.0, Some(5.5), 0.0), DefaultConfig(id)) == 3000.0
    ensures OriginationFee(HecmInput(70, 400000.0, Some(5.5), 0.0), DefaultConfig(id)) == 6000.0
  {
  }

  /**
   * Age 70, home 300000, rate 5.5, mortgage 50000, default configuration and
   * no table data: factor 0.34 from the formula, principal limit 102000, fee
   * 5000, premium 6000, closing costs 14000, cash out 38000.
   */
  lemma WorkedExample(id: nat)
    ensures
      var c := NewCalculator(FromDict(InputDict(70, 300000.0, Some(5.5), 50000.0, None)), None, DefaultConfig(id), None);
      Computable(c) &&
      var r := Calculate(c, Tables([], None));
      && r.maxClaimAmount == 300000.0
      && r.principalLimitFactor == 0.34
      && r.principalLimit == 102000.0
      && r.originationFee == 5000.0
      && r.mortgageInsurancePremium == 6000.0
      && r.totalClosingCosts == 14000.0
      && r.maxCashOut == 38000.0
      && r.margin == 2.00 && r.indexRate == 3.50
  {
    var c := NewCalculator(FromDict(InputDict(70, 300000.0, Some(5.5), 50000.0, None)), None, DefaultConfig(id), None);
    ResolveFormulaExactlyWithoutAgeRows(Tables([], None), id, 70, 5.5);
    ApproximationExample();
    CalculatedFactor(c, Tables([], None));
  }
}
