/** The borrower's input record (`HECMInput`) and its validation. */
module Inputs {
  import opened Wrappers

  /**
   * The stored input fields. The interest rate is absent when the caller
   * supplied neither a rate nor a margin.
   */
  datatype HecmInput = HecmInput(
    age: int,
    homeValue: real,
    interestRate: Option<real>,
    existingMortgage: real)

  /** The error `clean` raises, one per check. */
  datatype ValidationError =
    | AgeBelowMinimum(minAge: int)
    | HomeValueNotPositive
    | InterestRateNotPositive
    | InterestRateMissing    // comparing a missing rate with 0 raises a TypeError
    | MortgageNegative

  datatype Outcome = Pass | Fail(error: ValidationError)

  /**
   * `HECMInput.clean`: the checks run in the order age, home value,
   * interest rate, existing mortgage, and the first that fails is reported.
   * `minAge` is the minimum age of the current configuration.
   */
  function Clean(input: HecmInput, minAge: int): (r: Outcome)
    ensures r == Pass <==>
      && input.age >= minAge
      && input.homeValue > 0.0
      && input.interestRate.Some? && input.interestRate.value > 0.0
      && input.existingMortgage >= 0.0
    ensures r == Fail(AgeBelowMinimum(minAge)) <==> input.age < minAge
    ensures r == Fail(HomeValueNotPositive) <==> input.age >= minAge && input.homeValue <= 0.0
    ensures r == Fail(InterestRateMissing) <==>
      input.age >= minAge && input.homeValue > 0.0 && input.interestRate.None?
    ensures r == Fail(InterestRateNotPositive) <==>
      && input.age >= minAge && input.homeValue > 0.0
      && input.interestRate.Some? && input.interestRate.value <= 0.0
    ensures r == Fail(MortgageNegative) <==>
      && input.age >= minAge && input.homeValue > 0.0
      && input.interestRate.Some? && input.interestRate.value > 0.0
      && input.existingMortgage < 0.0
  {
    if input.age < minAge then Fail(AgeBelowMinimum(minAge))
    else if input.homeValue <= 0.0 then Fail(HomeValueNotPositive)
    else if input.interestRate.None? then Fail(InterestRateMissing)
    else if input.interestRate.value <= 0.0 then Fail(InterestRateNotPositive)
    else if input.existingMortgage < 0.0 then Fail(MortgageNegative)
    else Pass
  }
}
