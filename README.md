# HECM calculation engine — a Dafny model

This project models the calculation engine of a Home Equity Conversion Mortgage
(HECM) calculator. The engine is the `HECMCalculator` service and the
`HECMInput.clean` validator. From a borrower's age, home value, interest rate
(or index rate plus margin) and existing mortgage, and from a configuration of
regulatory constants, it derives these figures:

- the max claim amount;
- the principal limit factor (PLF);
- the principal limit;
- the tiered origination fee;
- the mortgage insurance premium (MIP);
- the closing costs;
- the maximum cash out.

Python `Decimal` values are exact at these magnitudes, so every amount, rate and
factor is a Dafny `real`. Rates are in per cent (5.5 means 5.5 %). Configuration
ratios are fractions (0.02 means 2 %).

Modules:

- `Wrappers` (`wrappers.dfy`): `Option`. A Python value that may be `None`, or a dictionary key that may be absent.
- `Numbers` (`numbers.dfy`): `min`, `max`, `abs(a - b)` on decimals. Also the fact that the CSV tolerance `< 0.001` is equality on three-decimal rates.
- `Config` (`config.dfy`): the `HECMConfig` record and its default values.
- `Inputs` (`inputs.dfy`): the `HECMInput` fields and `clean`. The checks run in order and the first failure is reported.
- `PlfResolver` (`plf.dfy`): the PLF ladder. It tries, in order:
  1. an exact database row;
  2. an exact CSV row;
  3. the nearest-rate CSV row of the same age, first minimum as pandas `idxmin`;
  4. the closed-form formula.

  The nearest search is given twice: as a running-minimum function (`NearestRow`) and as the loop that computes it (`ScanNearest`).
- `Calculator` (`calculator.dfy`): rate/margin reconciliation, the constructor, the money figures, `calculate` and `recalculate_with_margin`.

A calculator is an immutable value `Calculator(input, config, indexRate)`. The
data the engine reads are passed in as a `Tables` value:

- the database rows (`PLFTable`);
- the CSV dataset, `None` when it is not loaded or cannot be read.

Points where the code's behaviour is easy to misread, and how the model follows it:

- Ties in the nearest-rate search are not left open. `idxmin` returns the first row with the smallest rate difference, and so does `NearestRow`.
- A factor taken from a table is returned as stored. The [0.2, 0.75] range is guaranteed only by the formula, and for table answers only when the table rows lie in that range (`ResolvedFactorInRange`).
- The margin is not validated (`clean` has no margin check).
- When neither a rate nor a margin is supplied, the margin becomes 2.00 but no rate is derived. A later validation then reports the missing rate.
- `clean` reads the minimum age of the *current* configuration, not of the calculator's. The model passes it in as `minAge`.
- `self.index_rate or 3.50` tests truthiness, so an index rate of 0 reads as "none". With a zero index the reported index (3.50) plus the margin is not the rate that was used (`ZeroIndexReportedAsDefault`). A second recalculation then moves the rate (`RecalculationZeroIndexDrifts`).

## Model

| member | source | states |
|---|---|---|
| `Inputs.Clean` | myhecmapp/models/inputs.py:26-36 | passes iff age >= min age, home value > 0, rate present and > 0, mortgage >= 0; each error is reported exactly when every earlier check passed and its own fails (order age, home value, rate, mortgage) |
| `Config.DefaultConfig` | myhecmapp/models/config.py:64-74 | the fallback configuration: limit 1089300, min age 62, fee floor 2500 and cap 6000; it satisfies the configuration invariant |
| `Calculator.Reconcile` | myhecmapp/services/calculator.py:66-84 | a given rate or margin is never overwritten; the margin is always set afterwards; the rate stays missing only when neither rate nor margin was given; whenever a figure was derived and the index is known, rate = index + margin |
| `Calculator.ReconcileRateFromMargin` | myhecmapp/services/calculator.py:67-71 | margin without rate gives rate = (index, else 3.50) + margin |
| `Calculator.ReconcileMarginFromRate` | myhecmapp/services/calculator.py:76-77 | rate and index without margin give margin = rate - index, rate unchanged |
| `Calculator.ReconcileDefaultMargin` | myhecmapp/services/calculator.py:82-83 | every other missing margin becomes 2.00 and the rate is left as given (possibly missing) |
| `Calculator.ReconcileComplete` | myhecmapp/services/calculator.py:66-84 | with both rate and margin present no branch fires: the input passes through unchanged |
| `Calculator.ReconcileRoundTrip` | myhecmapp/services/calculator.py:66-77 | deriving the rate from (m, x) and then the margin from (that rate, x) returns m exactly |
| `Calculator.NewCalculator` | myhecmapp/services/calculator.py:57-93 | uses the given configuration, else the current one; a dictionary gets exactly `Reconcile`'s input and index (age, home value and mortgage kept, rate and margin reconciled) and always ends with a margin; a ready record carries no margin and keeps the given index |
| `PlfResolver.FindDbRow` | myhecmapp/services/calculator.py:105-114 | finds the first row with the exact (configuration, age, rate) key, or reports that none exists |
| `PlfResolver.FindCsvExact` | myhecmapp/services/calculator.py:122-130 | finds the first CSV row with the same age and a rate within 0.001, or reports that none exists |
| `PlfResolver.NearestRow` | myhecmapp/services/calculator.py:135-145 | some row is found iff a row of that age exists; the row found has that age, its rate difference is minimal among rows of that age, and every earlier row of that age is strictly farther |
| `PlfResolver.ScanNearest` | myhecmapp/services/calculator.py:136-145 | the running-minimum loop returns exactly the row `NearestRow` specifies |
| `PlfResolver.Approximation` | myhecmapp/services/calculator.py:152-159 | the formula's factor always lies in [0.2, 0.75] |
| `PlfResolver.ApproximationExample` | myhecmapp/services/calculator.py:154-157 | age 70 at rate 5.5 gives 0.39 - 0.05 = 0.34 |
| `PlfResolver.ApproximationAntitoneInRate` | myhecmapp/services/calculator.py:154-157 | for a fixed age the factor never increases as the rate rises |
| `PlfResolver.ApproximationMonotoneInAge` | myhecmapp/services/calculator.py:154-157 | for a fixed rate the factor never decreases as the age rises |
| `PlfResolver.Resolve` | myhecmapp/services/calculator.py:98-159 | total (never fails on a miss); a database answer is a row with the exact key, a CSV-exact answer a row matching age and rate within 0.001, a nearest answer a row of the same age, and a formula answer the approximation |
| `PlfResolver.ResolvePrefersDatabase` | myhecmapp/services/calculator.py:105-113 | with unique keys, an exact database row is returned before any CSV row or the formula |
| `PlfResolver.ResolvePrefersCsvExact` | myhecmapp/services/calculator.py:118-130 | without a database row, the first exact CSV row wins over the nearest-rate search |
| `PlfResolver.ResolveNearestIsFirstMinimum` | myhecmapp/services/calculator.py:132-145 | a nearest answer comes only when no database row and no exact CSV row exist, and it is the first same-age row with minimal rate difference |
| `PlfResolver.ResolveFormulaExactlyWithoutAgeRows` | myhecmapp/services/calculator.py:114-159 | the formula is used iff no database row matches and the CSV data is unavailable, empty or has no row of that age |
| `PlfResolver.ResolvedFactorInRange` | myhecmapp/services/calculator.py:98-159 | whichever rung answers, the factor is in [0.2, 0.75] when the table data is |
| `PlfResolver.CsvMatchIsExact` | myhecmapp/services/calculator.py:124-125 | on three-decimal rates the CSV tolerance test is exact equality of age and rate |
| `PlfResolver.NearestIgnoresOtherAges` | myhecmapp/services/calculator.py:136-141 | appending rows of other ages never changes the nearest-rate pick |
| `Numbers.ToleranceIsEquality` | myhecmapp/services/calculator.py:125 | for rates with three decimals, abs(a - b) < 0.001 iff a = b |
| `Calculator.MaxClaimAmount` | myhecmapp/services/calculator.py:161-163 | at most the home value and at most the lending limit, and equal to one of them |
| `Calculator.OriginationFee` | myhecmapp/services/calculator.py:165-177 | never above the cap; at or below the first-tier limit, at least the minimum fee whenever the minimum does not exceed the cap, and then one of cap, minimum or value x first-tier rate |
| `Calculator.OriginationFeeExamples` | myhecmapp/services/calculator.py:165-177 | default configuration: home value 150000 pays 3000, home value 400000 pays min(4000 + 2000, 6000) = 6000 |
| `Calculator.MortgageInsurancePremium` | myhecmapp/services/calculator.py:179-181 | the premium rate applied to the home value or to the limit, never more than either for a non-negative rate |
| `Calculator.OtherClosingCosts` | myhecmapp/services/calculator.py:183-186 | the fixed estimate 3000.00 |
| `Calculator.TotalClosingCosts` | myhecmapp/services/calculator.py:188-193 | fee + premium + 3000.00, hence at most cap + premium + 3000.00 |
| `Calculator.PrincipalLimitFactor` | myhecmapp/services/calculator.py:98-111 | resolved for the calculator's age, rate and configuration; in [0.2, 0.75] when the table data is |
| `Calculator.PrincipalLimit` | myhecmapp/services/calculator.py:195-199 | max claim x factor |
| `Calculator.MaxCashOut` | myhecmapp/services/calculator.py:201-206 | never negative; equal to principal limit - mortgage - closing costs when that is non-negative, else 0 |
| `Calculator.Calculate` | myhecmapp/services/calculator.py:208-226 | echoes input and configuration; max claim within both bounds; fee within the cap; other costs 3000.00; cash out >= 0; margin defaults to 2.00 and index rate to 3.50 |
| `Calculator.CalculatedFiguresAgree` | myhecmapp/services/calculator.py:208-221 | in a result: max claim = min(home value, lending limit), fee = the tiered origination fee, principal limit = max claim x factor, MIP = max claim x MIP rate, total = fee + MIP + other costs |
| `Calculator.CalculatedCashOut` | myhecmapp/services/calculator.py:201-206 | in a result the cash out is what remains after mortgage and closing costs, floored at 0 |
| `Calculator.CalculatedFactor` | myhecmapp/services/calculator.py:195-199 | the result's factor is the resolver's answer; with table data in range the principal limit is between 20 % and 75 % of the max claim |
| `Calculator.Validated` | myhecmapp/models/inputs.py:26-36 | rejected exactly when `clean` fails, with its error; otherwise the calculation runs on an input that has a rate |
| `Calculator.UnderageRejected` | myhecmapp/models/inputs.py:29-30 | an age below the minimum is rejected with that error before any figure is computed |
| `Calculator.RecalculationIndex` | myhecmapp/services/calculator.py:256-257 | the index given, else the stored one unless it is zero or missing, else 3.50 |
| `Calculator.Recalculated` | myhecmapp/services/calculator.py:256-273 | same age, home value, mortgage and configuration; margin as given; rate = index + margin; the index is stored; the rate is present |
| `Calculator.RecalculateWithMargin` | myhecmapp/services/calculator.py:245-276 | the result keeps age, home value and mortgage, has rate = index + new margin, and reports the new margin |
| `Calculator.RecalculationIdempotent` | myhecmapp/services/calculator.py:256-276 | with a non-zero index, recalculating the recalculated calculator with the same margin changes neither the calculator nor the result |
| `Calculator.RecalculationZeroIndexDrifts` | myhecmapp/services/calculator.py:256-257 | with an index of 0 the rate is the margin, and a second recalculation moves it to 3.50 + margin |
| `Calculator.ReportedRateIsIndexPlusMargin` | myhecmapp/services/calculator.py:222-223 | when the rate was derived from a margin and the index is missing or non-zero, reported index + reported margin = rate |
| `Calculator.ZeroIndexReportedAsDefault` | myhecmapp/services/calculator.py:222-223 | with an index of 0 the rate equals the margin but the reported index is 3.50 |
| `Calculator.WorkedExample` | myhecmapp/services/calculator.py:161-226 | age 70, home 300000, rate 5.5, mortgage 50000, default configuration, no table data: factor 0.34, principal limit 102000, fee 5000, MIP 6000, closing costs 14000, cash out 38000 |

## Left out

- Loading the CSV file and the class-level cache (`load_plf_data`) are file I/O and global mutable state. The dataset is a parameter, `None` when it cannot be loaded. An error while reading it (a missing column, say) is modelled the same way.
- The Django ORM calls (`PLFTable.objects.get`, `HECMConfig.get_current`, `objects.latest()`). The database table is a sequence of rows. The current configuration is a parameter.
- `PLFTable.objects.get` raises `MultipleObjectsReturned` when a key is duplicated. The `unique_together` constraint rules that out, so `Resolve`, `PrincipalLimitFactor`, `PrincipalLimit`, `MaxCashOut`, `Calculate`, `Validated`, `RecalculateWithMargin` and the lemmas about the database rung require unique keys (`DbKeysUnique`).
- Logging, and the `_state.adding` bookkeeping of unsaved records.
- `get_result_dict` only converts the figures to floats. The model has no floats.
- Float effects are not modelled. These are the float conversion of the rate in the CSV comparisons and the `Decimal(str(float))` conversion of a CSV factor. Rates and factors are exact.
- The constructor's loop that wraps each numeric value in `Decimal(str(value))` is the identity on exact numbers. A dictionary key present with the value `None` is treated like an absent key. Age, home value and mortgage are assumed present.
- Decimal context precision (28 significant digits) and the rounding of values stored in decimal columns. At these magnitudes the arithmetic is exact.
- `Calculator.NewCalculator`: the `TypeError` of the dictionary path is not modelled. `HECMInput` declares no `margin` field, and every reconciled dictionary carries a `margin` key, which Django's model constructor rejects (calculator.py:86). As written, every dictionary input therefore fails, and so does `recalculate_with_margin` (calculator.py:273). The model computes the intended result instead, with the margin kept beside the stored fields in `NormalisedInput`. `Calculator.Recalculated`, `Calculator.RecalculateWithMargin` and `Calculator.WorkedExample` build on that.
- `Calculator.RecalculateWithMargin` returns the exact result record. The source returns its figures as floats, and the float conversion is left out.
- `Calculator.Calculate` needs only an interest rate. Without one the source raises a `TypeError`. It does not run `clean`: `Calculator.Validated` composes the two.
- HTTP views, URL routing, admin registration, the import and default-config management commands, and the `HECMResult` and `PLFTable` schemas. These are glue and storage, not calculation.
