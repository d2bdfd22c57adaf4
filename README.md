# Mortgage repayment calculator — a Dafny model

The repository is a single React form (`src/App.jsx`). It reads a mortgage amount, an annual interest rate, a term in years and a mortgage type. On submit it validates the three numbers and raises one error flag per bad field. When all three are valid it computes the monthly payment and the total repaid, either on the repayment (annuity) basis or on an interest-only basis, and shows them rounded to two decimals.

This model covers:

- **`AmountInput`** (`amount_input.dfy`): the amount field's sanitiser, `replace(/[^0-9.]/g, '')`, as a pure filter on strings.
- **`Validation`** (`validation.dfy`): the three checks as predicates on parsed fields. A parsed field is `Option<real>`, and `None` stands for NaN.
- **`Rounding`** (`rounding.dfy`): `toFixed(2)` read as a number. It gives the nearest multiple of 0.01, and a tie goes to the larger magnitude.
- **`Repayment`** (`repayment.dfy`): the engine, over exact reals. It has the unit conversions, the three payment branches and their composition `Calculate`. It also defines a month-by-month outstanding `Balance`, which is used to prove what the formulas mean: the annuity and zero-rate payments clear the loan in exactly the term, and interest-only payments leave the principal outstanding until the final lump sum.
- **`MortgageForm`** (`mortgage_form.dfy`): the component's ten `useState` fields as the fields of class `Form`, with one method per handler (Clear All, submit, the three field edits and the two radio buttons). `Valid()` is the invariant every handler keeps: results are present exactly while they are shown, and shown results never coexist with a raised error flag.
- **`Scenarios`** (`scenarios.dfy`): fixed worked examples and two client methods of `Form`.

Two library calls that the model cannot define are parameters:

- `parseFloat` becomes `parseFloat: string -> Option<real>`.
- `Math.pow` becomes `pow: (real, real) -> real`. The engine needs only `IsGrowthPow(pow)`: a base above 1 raised to a positive exponent stays above 1.

For whole numbers of months, the lemmas instantiate the power with the recursive `NatPow`.

Some details of the code that the model keeps:

- The mortgage type is a string. Every value other than `"repayment"` takes the interest-only branch (`src/App.jsx:87-98`).
- The fields are read with `parseFloat` on the stored text, which also accepts a numeric prefix followed by other characters.
- The stored results are the outputs of `toFixed(2)`, which are strings in the code. Here they are the numeric values of those strings.
- The model includes the per-field edit handlers, the radio buttons and Clear All, which are state transitions of the same component.

## Model

| member | source | states |
|---|---|---|
| `AmountInput.Sanitize` | src/App.jsx:140 | the result holds only `0`-`9` and `.`, is no longer than the input, and equals the input when the input has nothing else |
| `AmountInput.SanitizeAppend` | src/App.jsx:140 | sanitising a concatenation is the concatenation of the sanitised parts, so the kept characters keep their original order |
| `AmountInput.SanitizeChar` | src/App.jsx:140 | a single character is kept exactly when it is a digit or a point |
| `AmountInput.SanitizeIdempotent` | src/App.jsx:140 | sanitising twice equals sanitising once |
| `AmountInput.SanitizeCount` | src/App.jsx:140 | every digit and point occurs in the result as often as in the input; every other character occurs zero times |
| `Validation.AmountInvalid` | src/App.jsx:58 | the amount flag's condition: the parsed amount is NaN, zero or negative |
| `Validation.TermInvalid` | src/App.jsx:62 | the term flag's condition: the parsed term is NaN, zero or negative |
| `Validation.RateInvalid` | src/App.jsx:66 | the rate flag's condition: the parsed rate is NaN or negative, so a zero rate passes |
| `Validation.AllValid` | src/App.jsx:55-71 | `isValid` stays true: none of the three conditions holds |
| `Validation.AllValidIsEngineDomain` | src/App.jsx:55-71 | no flag is raised iff all three fields parse and amount > 0, term > 0 and rate >= 0, which is exactly the engine's precondition |
| `Validation.Boundaries` | src/App.jsx:58-69 | a zero rate passes and a negative rate fails; a zero amount or term fails; NaN fails for every field |
| `Rounding.NearestUp` | src/App.jsx:107-108 | the chosen whole number lies within one half of its argument, ties going up |
| `Rounding.ToFixed2` | src/App.jsx:107-108 | the displayed value is a whole number of hundredths within 0.005 of the value; a tie goes to the larger magnitude; a non-negative value never displays as negative |
| `Rounding.ToFixed2Unique` | src/App.jsx:107-108 | no other whole number of hundredths lies in the rounding window, so the rounding is fully determined |
| `Rounding.ToFixed2OnHundredths` | src/App.jsx:107-108 | a value that is already in hundredths displays unchanged |
| `Rounding.ToFixed2Tie` | src/App.jsx:107-108 | an exact half-hundredth (1.005) displays as the larger neighbour (1.01) |
| `Repayment.MonthlyRate` | src/App.jsx:80 | the monthly rate times 1200 gives back the annual percentage; it is non-negative iff the annual rate is |
| `Repayment.PeriodCount` | src/App.jsx:82 | the month count divided by 12 gives back the term; it is positive iff the term is |
| `Repayment.ZeroRateRepayment` | src/App.jsx:89-96 | the monthly payment is positive, n payments add up to the principal, and the total equals the principal exactly |
| `Repayment.AnnuityRepayment` | src/App.jsx:93-96 | the payment exceeds one month's interest (so the balance falls); payment × (growth − 1) = P·r·growth; total = payment × n |
| `Repayment.InterestOnly` | src/App.jsx:98-104 | the payment is the month's interest P·r; total − P = payment × n; total ≥ P, with equality iff the rate is 0 |
| `Repayment.Calculate` | src/App.jsx:79-104 | on validated inputs it picks the zero-rate, annuity or interest-only branch by type and rate; any type but `"repayment"` is interest-only; payment ≥ 0 and total > 0; on the repayment basis the payment is positive and total = payment × n |
| `Repayment.NatPowAtLeastOne` | src/App.jsx:94 | a base of at least 1 raised to a natural power is at least 1 |
| `Repayment.NatPowAboveOne` | src/App.jsx:94 | a base above 1 raised to a positive natural power is above 1: the growth property the annuity branch needs from `Math.pow` |
| `Repayment.BalanceClosedForm` | src/App.jsx:93-94 | after k months of compounding and paying m, balance × r = P·r·(1+r)^k − m·((1+r)^k − 1) |
| `Repayment.BalanceAtZeroRate` | src/App.jsx:89-91 | at a zero rate the balance after k payments of m is P − k·m |
| `Repayment.BalanceInterestOnly` | src/App.jsx:100-103 | paying exactly the interest leaves the balance at the principal in every month |
| `Repayment.AnnuityClearsLoan` | src/App.jsx:93-96 | for k whole months the annuity payment brings the balance to exactly 0 after k months |
| `Repayment.ZeroRateClearsLoan` | src/App.jsx:89-91 | for k whole months the zero-rate payment P / k brings the balance to exactly 0 after k months |
| `Repayment.GrowthBound` | src/App.jsx:94-96 | (1+r)^k − 1 < k·r·(1+r)^k for r > 0 and k ≥ 1 |
| `Repayment.AnnuityTotalExceedsPrincipal` | src/App.jsx:93-96 | at a positive rate over whole months the annuity total exceeds the principal |
| `Repayment.RepaymentAmortizes` | src/App.jsx:79-96 | for a whole number of months on the repayment basis, the computed payment clears the loan by the last month, and total ≥ P with equality iff the rate is 0 |
| `Repayment.InterestOnlyKeepsPrincipal` | src/App.jsx:98-104 | on the interest-only basis the computed payment keeps the outstanding balance at the principal, which the final lump sum repays |
| `MortgageForm.Form.constructor` | src/App.jsx:16-27 | the initial state: three empty texts, type `"repayment"`, no results, results hidden, all flags down |
| `MortgageForm.Form.ClearAll` | src/App.jsx:29-41 | every one of the ten fields returns to its initial value |
| `MortgageForm.Form.OnAmountChange` | src/App.jsx:139-143 | the amount becomes the sanitised input, its flag goes down, and the other flags, the results and their visibility are unchanged |
| `MortgageForm.Form.OnTermChange` | src/App.jsx:159-162 | the term text is stored, its flag goes down, and the other flags and the results are unchanged |
| `MortgageForm.Form.OnRateChange` | src/App.jsx:179-182 | the rate text is stored, its flag goes down, and the other flags and the results are unchanged |
| `MortgageForm.Form.OnRepaymentSelected` | src/App.jsx:205 | the type becomes `"repayment"`, and nothing else changes |
| `MortgageForm.Form.OnInterestOnlySelected` | src/App.jsx:220 | the type becomes `"interestOnly"`, and nothing else changes |
| `MortgageForm.Form.CalculateRepayments` | src/App.jsx:44-110 | each flag is set iff its own parsed field fails its own check, all three always evaluated; results are shown iff none fails; on failure both results are null; on success they are the rounded outputs of `Calculate` on the parsed fields; the texts and the type are untouched |
| `Scenarios.ZeroRateScenario` | src/App.jsx:89-96 | 200000 over 25 years at 0% on the repayment basis shows 666.67 a month and 200000.00 in total |
| `Scenarios.InterestOnlyScenario` | src/App.jsx:98-104 | 200000 over 25 years at 5% interest only shows 833.33 a month and 450000.00 in total |
| `Scenarios.ZeroAmountScenario` | src/App.jsx:58-61 | a zero amount is flagged whatever the term and rate hold |
| `Scenarios.ClearThenCalculate` | src/App.jsx:29-77 | submitting right after Clear All raises all three flags at once and shows no results |
| `Scenarios.FixAmountAfterFailure` | src/App.jsx:47-77 | after that failed submission, editing the amount lowers only the amount flag |

## Left out

- Rendering (JSX, CSS class selection, images, error texts) is out of the model. It is presentation, driven by the modelled fields.
- The browser's constraint validation of the number inputs is not modelled. The term input has `min='1'` with the default step of 1 (`src/App.jsx:163`), and the rate input has `min='0' step='0.01'` (`src/App.jsx:183-184`). The form (`src/App.jsx:127-130`) has no `noValidate`. So the browser blocks `submit`, and the handler never runs, for a term below 1 or a fractional term, or for a negative rate or one not in hundredths. `Form.CalculateRepayments` accepts any field text, which covers more inputs than the browser lets through. Through the page itself, the term and rate flags can go up only for an empty field. Every term the browser submits is a whole number of years, so a whole number of months, which is the case `RepaymentAmortizes` covers.
- `formatNumberWithCommas` and the `value=` binding of the amount input are out of the model. They rely on `toLocaleString('en-GB')`, a locale library that is not part of this model.
- `parseFloat` is a parameter, not a definition. JavaScript number parsing, with its acceptance of prefixes such as `"12abc"`, is not reimplemented. The model does not know that `parseFloat("")` is NaN: the client methods take that as a requirement.
- `Math.pow` is a parameter constrained only by `IsGrowthPow`. Dafny has no real exponentiation. For natural exponents, the lemmas use `NatPow` under the hypothesis that `pow` agrees with it.
- Repayment.Calculate: for a repayment mortgage at a positive rate, "total ≥ principal" is proved only for a whole number of months with `pow` equal to `NatPow` (`RepaymentAmortizes`). For fractional terms and an arbitrary `pow`, only total = payment × n and payment > one month's interest are stated.
- IEEE-754 doubles are replaced by exact reals. This leaves out several behaviours:
  - rounding in `R / 100 / 12`, `T * 12` and the annuity formula;
  - overflow to Infinity;
  - underflow that could make `r === 0` for a tiny non-zero rate;
  - `(1+r)^n` rounding to 1, where the annuity formula divides by zero;
  - `toFixed(2)` ties decided on the binary value, so the double 1.005 displays as "1.00";
  - `toFixed` switching to exponent notation at 1e21 and above.
- The results' string form is not modelled. `monthlyPayment` and `totalRepayment` hold the numeric value of the `toFixed(2)` string.
- React's batching and asynchronous `setState` are not modelled. Setters are sequential field assignments, and only the state after each handler is observed.
- `e.preventDefault()` and the event objects are browser plumbing and are left out. The handlers take the new field text directly.
- The JavaScript strings of the input fields are sequences of 16-bit code units. Here they are `seq<char>`. The sanitiser only compares characters with ASCII digits and the point, so this makes no difference to it.
