/**
 * The three input checks of the calculate handler. A parsed field is an
 * `Option<real>`, `None` standing for NaN; each check looks at its own field only.
 */
module Validation {
  import opened Wrappers

  /** The amount error flag: NaN, zero or negative. */
  predicate AmountInvalid(amount: Option<real>) {
    amount.None? || amount.value <= 0.0
  }

  /** The term error flag: NaN, zero or negative. */
  predicate TermInvalid(term: Option<real>) {
    term.None? || term.value <= 0.0
  }

  /** The rate error flag: NaN or negative; a zero rate passes. */
  predicate RateInvalid(rate: Option<real>) {
    rate.None? || rate.value < 0.0
  }

  /** No error flag is raised. */
  predicate AllValid(amount: Option<real>, term: Option<real>, rate: Option<real>) {
    !AmountInvalid(amount) && !TermInvalid(term) && !RateInvalid(rate)
  }

  /** Passing all three checks is exactly the domain on which the repayment engine is defined. */
  lemma AllValidIsEngineDomain(amount: Option<real>, term: Option<real>, rate: Option<real>)
    ensures AllValid(amount, term, rate) <==>
      && amount.Some? && term.Some? && rate.Some?
      && amount.value > 0.0 && term.value > 0.0 && rate.value >= 0.0
  {
  }

  /** A zero rate is accepted, a negative one refused, and a zero amount or term refused. */
  lemma Boundaries()
    ensures !RateInvalid(Some(0.0)) && RateInvalid(Some(-0.01))
    ensures AmountInvalid(Some(0.0)) && TermInvalid(Some(0.0))
    ensures AmountInvalid(None) && TermInvalid(None) && RateInvalid(None)
  {
  }
}
