/**
 * The sanitiser applied to every edit of the mortgage-amount field: the
 * global regular-expression replacement of `[^0-9.]` by the empty string.
 */
module AmountInput {

  /** A character the amount field keeps: a decimal digit or a point. */
  predicate IsAmountChar(c: char) {
    '0' <= c <= '9' || c == '.'
  }

  /** Every character of `s` is one the amount field keeps. */
  predicate AllAmountChars(s: string) {
    forall i :: 0 <= i < |s| ==> IsAmountChar(s[i])
  }

  /** `raw` with every character other than `0`-`9` and `.` removed. */
  function Sanitize(raw: string): (clean: string)
    ensures AllAmountChars(clean)
    ensures |clean| <= |raw|
    ensures AllAmountChars(raw) ==> clean == raw
  {
    if raw == [] then []
    else (if IsAmountChar(raw[0]) then [raw[0]] else []) + Sanitize(raw[1..])
  }

  /** Sanitising distributes over concatenation, so the kept characters stay in their order. */
  lemma {:induction false} SanitizeAppend(a: string, b: string)
    ensures Sanitize(a + b) == Sanitize(a) + Sanitize(b)
  {
    if a == [] {
      assert a + b == b;
    } else {
      assert (a + b)[0] == a[0];
      assert (a + b)[1..] == a[1..] + b;
      SanitizeAppend(a[1..], b);
    }
  }

  /** A single character survives exactly when it is a digit or a point. */
  lemma SanitizeChar(c: char)
    ensures Sanitize([c]) == if IsAmountChar(c) then [c] else []
  {
    assert [c][1..] == [];
  }

  /** Sanitising twice is the same as sanitising once. */
  lemma SanitizeIdempotent(raw: string)
    ensures Sanitize(Sanitize(raw)) == Sanitize(raw)
  {
  }

  /** Each digit and point occurs as often as in the input; every other character is gone. */
  lemma {:induction false} SanitizeCount(raw: string, c: char)
    ensures multiset(Sanitize(raw))[c] == if IsAmountChar(c) then multiset(raw)[c] else 0
  {
    if raw != [] {
      SanitizeCount(raw[1..], c);
      assert raw == [raw[0]] + raw[1..];
      assert multiset(raw) == multiset([raw[0]]) + multiset(raw[1..]);
    }
  }
}
