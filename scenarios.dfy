/**
 * Worked examples of the calculator: fixed inputs with the figures the form
 * displays, and a client of the form.
 */
module Scenarios {
  import opened Wrappers
  import Validation
  import Rounding
  import Repayment
  import MortgageForm

  /** 200000 over 25 years at 0%, repayment: 666.67 a month, 200000.00 in all. */
  lemma ZeroRateScenario(pow: (real, real) -> real)
    requires Repayment.IsGrowthPow(pow)
    ensures var p := Repayment.Calculate(200000.0, 0.0, 25.0, Repayment.RepaymentType, pow);
      Rounding.ToFixed2(p.monthly) == 666.67 && Rounding.ToFixed2(p.total) == 200000.0
  {

  }

  /** 200000 over 25 years at 5%, interest only: 833.33 a month, 450000.00 in all. */
  lemma InterestOnlyScenario(pow: (real, real) -> real)
    requires Repayment.IsGrowthPow(pow)
    ensures var p := Repayment.Calculate(200000.0, 5.0, 25.0, Repayment.InterestOnlyType, pow);
      Rounding.ToFixed2(p.monthly) == 833.33 && Rounding.ToFixed2(p.total) == 450000.0
  {

  }

  /** A zero amount is flagged whatever the other two fields hold. */
  lemma ZeroAmountScenario(term: Option<real>, rate: Option<real>)
    ensures Validation.AmountInvalid(Some(0.0)) && !Validation.AllValid(Some(0.0), term, rate)
  {
  }

  /**
   * A client: after Clear All every field is empty, so submitting the form
   * raises all three error flags at once and shows no results.
   */
  method ClearThenCalculate(form: MortgageForm.Form, parseFloat: string -> Option<real>,
                            pow: (real, real) -> real)
    requires form.Valid() && Repayment.IsGrowthPow(pow) && parseFloat("") == None
    modifies form
    ensures form.Valid()
    ensures form.amountError && form.termError && form.rateError
    ensures !form.showResults && form.monthlyPayment == None && form.totalRepayment == None
  {
    form.ClearAll();
    form.CalculateRepayments(parseFloat, pow);
  }

  /**
   * A client: after a failed submission, correcting the amount clears its
   * flag and leaves the other two raised.
   */
  method FixAmountAfterFailure(form: MortgageForm.Form, parseFloat: string -> Option<real>,
                               pow: (real, real) -> real, amount: string)
    requires form.Valid() && Repayment.IsGrowthPow(pow) && parseFloat("") == None
    modifies form
    ensures form.Valid()
    ensures !form.amountError && form.termError && form.rateError && !form.showResults
  {
    form.ClearAll();
    form.CalculateRepayments(parseFloat, pow);
    form.OnAmountChange(amount);
  }
}
