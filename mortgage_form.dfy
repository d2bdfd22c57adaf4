/**
 * The state of the mortgage calculator form and its event handlers: ten
 * fields, updated one setter at a time.
 */
module MortgageForm {
  import opened Wrappers
  import AmountInput
  import Validation
  import Rounding
  import Repayment

  class Form {
    // The three text inputs as typed (the amount already sanitised) and the selected type.
    var mortgageAmount: string
    var interestRate: string
    var mortgageTerm: string
    var mortgageType: string
    // The displayed results: the rounded values, or null.
    var monthlyPayment: Option<real>
    var totalRepayment: Option<real>
    var showResults: bool
    // One error flag per input field.
    var amountError: bool
    var termError: bool
    var rateError: bool

    /**
     * The results are present exactly while they are shown, and shown
     * results are non-negative hundredths that came with no error flag up.
     */
    ghost predicate Valid()
      reads this
    {
      && (monthlyPayment.Some? <==> showResults)
      && (totalRepayment.Some? <==> showResults)
      && (showResults ==> !amountError && !termError && !rateError)
      && (showResults ==>
            && Rounding.IsHundredths(monthlyPayment.value) && monthlyPayment.value >= 0.0
            && Rounding.IsHundredths(totalRepayment.value) && totalRepayment.value >= 0.0)
    }

    /** Every field holds the value it starts with. */
    ghost predicate IsInitial()
      reads this
    {
      && mortgageAmount == "" && interestRate == "" && mortgageTerm == ""
      && mortgageType == Repayment.RepaymentType
      && monthlyPayment == None && totalRepayment == None && !showResults
      && !amountError && !termError && !rateError
    }

    constructor ()
      ensures IsInitial() && Valid()
    {
      mortgageAmount, interestRate, mortgageTerm := "", "", "";
      mortgageType := Repayment.RepaymentType;
      monthlyPayment, totalRepayment := None, None;
      showResults := false;
      amountError, termError, rateError := false, false, false;
    }

    /** The Clear All button: every field back to its initial value. */
    method ClearAll()
      modifies this
      ensures IsInitial() && Valid()
    {
      mortgageAmount := "";
      interestRate := "";
      mortgageTerm := "";
      mortgageType := Repayment.RepaymentType;
      monthlyPayment := None;
      totalRepayment := None;
      showResults := false;
      amountError := false;
      termError := false;
      rateError := false;
    }

    /** An edit of the amount field: keep only digits and points, and clear the amount error only. */
    method OnAmountChange(raw: string)
      requires Valid()
      modifies this`mortgageAmount, this`amountError
      ensures Valid()
      ensures mortgageAmount == AmountInput.Sanitize(raw) && !amountError
      ensures termError == old(termError) && rateError == old(rateError)
      ensures monthlyPayment == old(monthlyPayment) && totalRepayment == old(totalRepayment)
      ensures showResults == old(showResults)
    {
      var rawValue := AmountInput.Sanitize(raw);
      mortgageAmount := rawValue;
      amountError := false;
    }

    /** An edit of the term field: store the text and clear the term error only. */
    method OnTermChange(value: string)
      requires Valid()
      modifies this`mortgageTerm, this`termError
      ensures Valid()
      ensures mortgageTerm == value && !termError
      ensures amountError == old(amountError) && rateError == old(rateError)
      ensures monthlyPayment == old(monthlyPayment) && totalRepayment == old(totalRepayment)
      ensures showResults == old(showResults)
    {
      mortgageTerm := value;
      termError := false;
    }

    /** An edit of the rate field: store the text and clear the rate error only. */
    method OnRateChange(value: string)
      requires Valid()
      modifies this`interestRate, this`rateError
      ensures Valid()
      ensures interestRate == value && !rateError
      ensures amountError == old(amountError) && termError == old(termError)
      ensures monthlyPayment == old(monthlyPayment) && totalRepayment == old(totalRepayment)
      ensures showResults == old(showResults)
    {
      interestRate := value;
      rateError := false;
    }

    /** The Repayment radio button. */
    method OnRepaymentSelected()
      requires Valid()
      modifies this`mortgageType
      ensures Valid() && mortgageType == Repayment.RepaymentType
    {
      mortgageType := Repayment.RepaymentType;
    }

    /** The Interest Only radio button. */
    method OnInterestOnlySelected()
      requires Valid()
      modifies this`mortgageType
      ensures Valid() && mortgageType == Repayment.InterestOnlyType
    {
      mortgageType := Repayment.InterestOnlyType;
    }

    /**
     * The form's submit handler. `parseFloat` stands for the JavaScript
     * function of that name (`None` for NaN) and `pow` for `Math.pow`.
     * All three checks run; results appear exactly when none fails.
     */
    method CalculateRepayments(parseFloat: string -> Option<real>, pow: (real, real) -> real)
      requires Valid() && Repayment.IsGrowthPow(pow)
      modifies this`monthlyPayment, this`totalRepayment, this`showResults
      modifies this`amountError, this`termError, this`rateError
      ensures Valid()
      ensures amountError == Validation.AmountInvalid(parseFloat(mortgageAmount))
      ensures termError == Validation.TermInvalid(parseFloat(mortgageTerm))
      ensures rateError == Validation.RateInvalid(parseFloat(interestRate))
      ensures showResults ==
        Validation.AllValid(parseFloat(mortgageAmount), parseFloat(mortgageTerm), parseFloat(interestRate))
      ensures !showResults ==> monthlyPayment == None && totalRepayment == None
      ensures showResults ==>
        var p := Repayment.Calculate(parseFloat(mortgageAmount).value, parseFloat(interestRate).value,
                                     parseFloat(mortgageTerm).value, mortgageType, pow);
        monthlyPayment == Some(Rounding.ToFixed2(p.monthly)) && totalRepayment == Some(Rounding.ToFixed2(p.total))
    {
      amountError := false;
      termError := false;
      rateError := false;

      var principal := parseFloat(mortgageAmount);
      var annualR := parseFloat(interestRate);
      var termY := parseFloat(mortgageTerm);

      var isValid := true;
      if principal.None? || principal.value <= 0.0 {
        amountError := true;
        isValid := false;
      }
      if termY.None? || termY.value <= 0.0 {
        termError := true;
        isValid := false;
      }
      if annualR.None? || annualR.value < 0.0 {
        rateError := true;
        isValid := false;
      }

      if !isValid {
        monthlyPayment := None;
        totalRepayment := None;
        showResults := false;
        return;
      }

      var r := Repayment.MonthlyRate(annualR.value);
      var n := Repayment.PeriodCount(termY.value);

      var calculated: Repayment.Payments;
      if mortgageType == Repayment.RepaymentType {
        if r == 0.0 {
          calculated := Repayment.ZeroRateRepayment(principal.value, n);
        } else {
          calculated := Repayment.AnnuityRepayment(principal.value, r, n, pow(1.0 + r, n));
        }
      } else {
        calculated := Repayment.InterestOnly(principal.value, r, n);
      }
      assert calculated == Repayment.Calculate(principal.value, annualR.value, termY.value, mortgageType, pow);

      monthlyPayment := Some(Rounding.ToFixed2(calculated.monthly));
      totalRepayment := Some(Rounding.ToFixed2(calculated.total));
      showResults := true;
    }
  }
}
