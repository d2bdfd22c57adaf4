/**
 * The repayment engine of the calculator form: unit conversion, the three
 * payment formulas and the total repayment, over exact reals.
 */
module Repayment {

  /** The mortgage-type value that selects the amortising branch. */
  const RepaymentType: string := "repayment"
  /** The value the second radio button stores; every value but `RepaymentType` is treated this way. */
  const InterestOnlyType: string := "interestOnly"

  /** What one calculation produces, before rounding for display. */
  datatype Payments = Payments(monthly: real, total: real)

  /** Annual percentage rate to monthly fraction: `(R / 100) / 12`. */
  function MonthlyRate(annualPercent: real): (r: real)
    ensures r * 1200.0 == annualPercent
    ensures r >= 0.0 <==> annualPercent >= 0.0
  {
    (annualPercent / 100.0) / 12.0
  }

  /** Term in years to a number of monthly periods; a fractional term gives a fractional count. */
  function PeriodCount(termYears: real): (n: real)
    ensures n / 12.0 == termYears
    ensures n > 0.0 <==> termYears > 0.0
  {
    termYears * 12.0
  }

  /**
   * The abstract behaviour required of `Math.pow`: a base above one raised
   * to a positive exponent stays above one.
   */
  ghost predicate IsGrowthPow(pow: (real, real) -> real) {
    forall base, exponent :: base > 1.0 && exponent > 0.0 ==> pow(base, exponent) > 1.0
  }

  /** Cancelling a positive factor from both sides of a strict inequality. */
  lemma CancelPositive(a: real, b: real, c: real)
    requires c > 0.0 && a * c > b * c
    ensures a > b
  {
  }

  /** One month of the balance recurrence, in the closed form multiplied through by `r`. */
  lemma ClosedFormStep(principal: real, r: real, m: real, b: real, g: real, bNext: real, gNext: real)
    requires b * r == principal * r * g - m * (g - 1.0)
    requires bNext == b * (1.0 + r) - m && gNext == (1.0 + r) * g
    ensures bNext * r == principal * r * gNext - m * (gNext - 1.0)
  {
    var q := 1.0 + r;
    assert bNext * r == (b * r) * q - m * r;
    assert (principal * r * g - m * (g - 1.0)) * q == principal * r * (q * g) - m * (q * g) + m * q;
    assert m * q - m * r == m;
  }

  /** Repayment at a zero rate: the principal split evenly over the periods. */
  function ZeroRateRepayment(principal: real, n: real): (p: Payments)
    requires principal > 0.0 && n > 0.0
    ensures p.monthly > 0.0
    ensures p.monthly * n == principal
    ensures p.total == principal
  {
    var monthly := principal / n;
    Payments(monthly, monthly * n)
  }

  /**
   * Repayment at a positive monthly rate `r`, where `growth` is `(1 + r)^n`:
   * the level annuity payment `P * (r * growth) / (growth - 1)`.
   */
  function AnnuityRepayment(principal: real, r: real, n: real, growth: real): (p: Payments)
    requires principal > 0.0 && r > 0.0 && n > 0.0 && growth > 1.0
    ensures p.monthly > principal * r
    ensures p.monthly * (growth - 1.0) == principal * r * growth
    ensures p.total == p.monthly * n
  {
    var monthly := principal * (r * growth) / (growth - 1.0);
    assert monthly * (growth - 1.0) == principal * r * growth;
    assert principal * r > 0.0;
    assert (principal * r) * growth - (principal * r) * (growth - 1.0) == principal * r;
    assert monthly * (growth - 1.0) > (principal * r) * (growth - 1.0);
    CancelPositive(monthly, principal * r, growth - 1.0);
    Payments(monthly, monthly * n)
  }

  /** Interest only: each month pays the interest, the principal is due at the end. */
  function InterestOnly(principal: real, r: real, n: real): (p: Payments)
    requires principal > 0.0 && r >= 0.0 && n > 0.0
    ensures p.monthly == principal * r
    ensures p.total - principal == p.monthly * n
    ensures p.total >= principal
    ensures p.total == principal <==> r == 0.0
  {
    var monthly := principal * r;
    assert r > 0.0 ==> monthly * n > 0.0;
    Payments(monthly, monthly * n + principal)
  }

  /**
   * One calculation on validated inputs. `pow` stands for `Math.pow`; any
   * mortgage type other than `RepaymentType` takes the interest-only branch.
   */
  function Calculate(principal: real, annualPercent: real, termYears: real, mortgageType: string,
                     pow: (real, real) -> real): (p: Payments)
    requires principal > 0.0 && annualPercent >= 0.0 && termYears > 0.0
    requires IsGrowthPow(pow)
    ensures mortgageType == RepaymentType && annualPercent == 0.0 ==>
      p == ZeroRateRepayment(principal, PeriodCount(termYears))
    ensures mortgageType == RepaymentType && annualPercent > 0.0 ==>
      var r := MonthlyRate(annualPercent);
      p == AnnuityRepayment(principal, r, PeriodCount(termYears), pow(1.0 + r, PeriodCount(termYears)))
    ensures mortgageType != RepaymentType ==>
      p == InterestOnly(principal, MonthlyRate(annualPercent), PeriodCount(termYears))
    ensures p.monthly >= 0.0 && p.total > 0.0
    ensures mortgageType == RepaymentType ==> p.monthly > 0.0 && p.total == p.monthly * PeriodCount(termYears)
  {
    var r := MonthlyRate(annualPercent);
    var n := PeriodCount(termYears);
    if mortgageType == RepaymentType then
      if r == 0.0 then ZeroRateRepayment(principal, n)
      else AnnuityRepayment(principal, r, n, pow(1.0 + r, n))
    else
      InterestOnly(principal, r, n)
  }

  // ---------------------------------------------------------------------
  // Natural exponents: what the formulas mean for a whole number of months.
  // ---------------------------------------------------------------------

  /** `x` raised to a natural power. */
  function NatPow(x: real, k: nat): real {
    if k == 0 then 1.0 else x * NatPow(x, k - 1)
  }

  lemma {:induction false} NatPowAtLeastOne(x: real, k: nat)
    requires x >= 1.0
    ensures NatPow(x, k) >= 1.0
  {
    if k > 0 {
      NatPowAtLeastOne(x, k - 1);
      assert x * NatPow(x, k - 1) >= NatPow(x, k - 1);
    }
  }

  /** `NatPow` has the growth property the annuity branch needs from `Math.pow`. */
  lemma NatPowAboveOne(x: real, k: nat)
    requires x > 1.0 && k > 0
    ensures NatPow(x, k) > 1.0
  {
    NatPowAtLeastOne(x, k - 1);
    assert x * NatPow(x, k - 1) >= x;
  }

  /** Outstanding balance after `k` months: interest at `r` is added, then `monthly` is paid. */
  function Balance(principal: real, r: real, monthly: real, k: nat): real {
    if k == 0 then principal else Balance(principal, r, monthly, k - 1) * (1.0 + r) - monthly
  }

  /** Closed form of the balance, multiplied through by `r`. */
  lemma {:induction false} BalanceClosedForm(principal: real, r: real, monthly: real, k: nat)
    ensures Balance(principal, r, monthly, k) * r
         == principal * r * NatPow(1.0 + r, k) - monthly * (NatPow(1.0 + r, k) - 1.0)
  {
    if k > 0 {
      BalanceClosedForm(principal, r, monthly, k - 1);
      ClosedFormStep(principal, r, monthly, Balance(principal, r, monthly, k - 1), NatPow(1.0 + r, k - 1),
                     Balance(principal, r, monthly, k), NatPow(1.0 + r, k));
    }
  }

  /** At a zero rate the balance falls by one payment each month. */
  lemma {:induction false} BalanceAtZeroRate(principal: real, monthly: real, k: nat)
    ensures Balance(principal, 0.0, monthly, k) == principal - k as real * monthly
  {
    if k > 0 {
      BalanceAtZeroRate(principal, monthly, k - 1);
    }
  }

  /** Paying exactly the interest leaves the balance at the principal every month. */
  lemma {:induction false} BalanceInterestOnly(principal: real, r: real, k: nat)
    ensures Balance(principal, r, principal * r, k) == principal
  {
    if k > 0 {
      BalanceInterestOnly(principal, r, k - 1);
    }
  }

  /** The annuity payment for `k` whole months clears the loan in exactly `k` months. */
  lemma AnnuityClearsLoan(principal: real, r: real, k: nat)
    requires principal > 0.0 && r > 0.0 && k > 0
    ensures NatPow(1.0 + r, k) > 1.0
    ensures Balance(principal, r, AnnuityRepayment(principal, r, k as real, NatPow(1.0 + r, k)).monthly, k) == 0.0
  {
    NatPowAboveOne(1.0 + r, k);
    var g := NatPow(1.0 + r, k);
    var m := AnnuityRepayment(principal, r, k as real, g).monthly;
    BalanceClosedForm(principal, r, m, k);
    assert Balance(principal, r, m, k) * r == 0.0;
  }

  /** The zero-rate payment for `k` whole months clears the loan in exactly `k` months. */
  lemma ZeroRateClearsLoan(principal: real, k: nat)
    requires principal > 0.0 && k > 0
    ensures Balance(principal, 0.0, ZeroRateRepayment(principal, k as real).monthly, k) == 0.0
  {
    BalanceAtZeroRate(principal, ZeroRateRepayment(principal, k as real).monthly, k);
  }

  /** Compound growth over `k` months is less than `k` months of interest on the grown amount. */
  lemma {:induction false} GrowthBound(r: real, k: nat)
    requires r > 0.0 && k > 0
    ensures NatPow(1.0 + r, k) - 1.0 < k as real * r * NatPow(1.0 + r, k)
  {
    var q := 1.0 + r;
    if k == 1 {
      assert NatPow(q, 1) == q;
      assert r * r > 0.0;
      assert q * r == r + r * r;
    } else {
      GrowthBound(r, k - 1);
      var g := NatPow(q, k - 1);
      NatPowAtLeastOne(q, k - 1);
      assert NatPow(q, k) == q * g;
      assert g - 1.0 < (k - 1) as real * r * g;
      assert q * (g - 1.0) < q * ((k - 1) as real * r * g);
      assert r <= r * (q * g) by {
        assert q * g >= 1.0;
      }
      calc {
        q * g - 1.0;
        q * (g - 1.0) + r;
      <
        q * ((k - 1) as real * r * g) + r;
        (k - 1) as real * r * (q * g) + r;
      <=
        (k - 1) as real * r * (q * g) + r * (q * g);
        k as real * r * (q * g);
      }
    }
  }

  /** An annuity at a positive rate over whole months repays more than the principal. */
  lemma AnnuityTotalExceedsPrincipal(principal: real, r: real, k: nat)
    requires principal > 0.0 && r > 0.0 && k > 0
    ensures NatPow(1.0 + r, k) > 1.0
    ensures AnnuityRepayment(principal, r, k as real, NatPow(1.0 + r, k)).total > principal
  {
    NatPowAboveOne(1.0 + r, k);
    var g := NatPow(1.0 + r, k);
    GrowthBound(r, k);
    var p := AnnuityRepayment(principal, r, k as real, g);
    TotalAlgebra(principal, r, g, p.monthly, k as real);
  }

  /** The totals step of the previous lemma, over plain reals. */
  lemma TotalAlgebra(principal: real, r: real, g: real, m: real, n: real)
    requires principal > 0.0 && g > 1.0
    requires m * (g - 1.0) == principal * r * g
    requires g - 1.0 < n * r * g
    ensures m * n > principal
  {
    var slack := n * r * g - (g - 1.0);
    assert principal * slack > 0.0;
    assert (m * n) * (g - 1.0) == principal * (g - 1.0) + principal * slack;
    CancelPositive(m * n, principal, g - 1.0);
  }

  /**
   * For a term that is a whole number of months, and a power that agrees
   * with `NatPow` there, a repayment mortgage is paid off by its last
   * monthly payment and its total covers the principal, exceeding it
   * exactly when the rate is positive.
   */
  lemma RepaymentAmortizes(principal: real, annualPercent: real, termYears: real,
                           pow: (real, real) -> real, k: nat)
    requires principal > 0.0 && annualPercent >= 0.0 && termYears > 0.0
    requires IsGrowthPow(pow)
    requires PeriodCount(termYears) == k as real
    requires pow(1.0 + MonthlyRate(annualPercent), k as real) == NatPow(1.0 + MonthlyRate(annualPercent), k)
    ensures var p := Calculate(principal, annualPercent, termYears, RepaymentType, pow);
      && Balance(principal, MonthlyRate(annualPercent), p.monthly, k) == 0.0
      && p.total >= principal
      && (p.total == principal <==> annualPercent == 0.0)
  {
    var r := MonthlyRate(annualPercent);
    if annualPercent == 0.0 {
      ZeroRateClearsLoan(principal, k);
    } else {
      AnnuityClearsLoan(principal, r, k);
      AnnuityTotalExceedsPrincipal(principal, r, k);
    }
  }

  /** Interest only over whole months leaves the principal outstanding until the lump sum at the end. */
  lemma InterestOnlyKeepsPrincipal(principal: real, annualPercent: real, termYears: real,
                                    mortgageType: string, pow: (real, real) -> real, k: nat)
    requires principal > 0.0 && annualPercent >= 0.0 && termYears > 0.0
    requires IsGrowthPow(pow) && mortgageType != RepaymentType
    ensures var p := Calculate(principal, annualPercent, termYears, mortgageType, pow);
      Balance(principal, MonthlyRate(annualPercent), p.monthly, k) == principal
  {
    BalanceInterestOnly(principal, MonthlyRate(annualPercent), k);
  }
}
