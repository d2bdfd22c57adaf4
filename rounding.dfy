/**
 * `Number.prototype.toFixed(2)` read as a number: the multiple of 0.01
 * nearest to the value, a tie going to the larger magnitude (section 21.1.3.3
 * of ECMA-262 picks the larger n for a non-negative value and handles a
 * negative value through its magnitude).
 */
module Rounding {

  /** `s` is a whole number of hundredths. */
  predicate IsHundredths(s: real) {
    (s * 100.0).Floor as real == s * 100.0
  }

  /** The whole number nearest to `y`, a tie going up. */
  function NearestUp(y: real): (k: int)
    ensures y - 0.5 < k as real <= y + 0.5
  {
    (y + 0.5).Floor
  }

  /** The numeric value of `toFixed(2)`: the nearest hundredth, a tie going to the larger magnitude. */
  function ToFixed2(x: real): (s: real)
    ensures IsHundredths(s)
    ensures x >= 0.0 ==> x - 0.005 < s <= x + 0.005
    ensures x < 0.0 ==> x - 0.005 <= s < x + 0.005
    ensures x >= 0.0 ==> s >= 0.0
  {
    var k := NearestUp(if x >= 0.0 then x * 100.0 else -x * 100.0);
    var m := if x >= 0.0 then k else -k;
    assert (m as real / 100.0) * 100.0 == m as real;
    m as real / 100.0
  }

  /** The rounding is determined: no other whole number of hundredths lies in the rounding window. */
  lemma ToFixed2Unique(x: real, z: real)
    requires x >= 0.0 && IsHundredths(z) && x - 0.005 < z <= x + 0.005
    ensures z == ToFixed2(x)
  {

  }

  /** A value already in hundredths is shown unchanged. */
  lemma ToFixed2OnHundredths(x: real)
    requires x >= 0.0 && IsHundredths(x)
    ensures ToFixed2(x) == x
  {
    ToFixed2Unique(x, x);
  }

  /** A value exactly half-way between two hundredths is shown as the larger one. */
  lemma ToFixed2Tie()
    ensures ToFixed2(1.005) == 1.01
  {
  }
}
