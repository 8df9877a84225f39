/**
 * ECMAScript `String.prototype.trim`: removes leading and trailing white space and
 * line terminators (ECMA-262, sections 12.2 "White Space" and 12.3 "Line Terminators").
 */
module JsString {

  /** WhiteSpace or LineTerminator code points, as `trim` strips them. */
  predicate IsWhiteSpace(c: char) {
    || c == '\t' || c == '\n' || c == '\U{000B}' || c == '\U{000C}' || c == '\r'
    || c == ' ' || c == '\U{00A0}' || c == '\U{1680}'
    || ('\U{2000}' <= c <= '\U{200A}')
    || c == '\U{2028}' || c == '\U{2029}' || c == '\U{202F}' || c == '\U{205F}'
    || c == '\U{3000}' || c == '\U{FEFF}'
  }

  predicate AllWhiteSpace(s: string) {
    forall i :: 0 <= i < |s| ==> IsWhiteSpace(s[i])
  }

  /** The number of white-space characters `s` starts with: all of them are white space, the next one is not. */
  function LeadingWhiteSpace(s: string): (n: nat)
    ensures n <= |s|
    ensures forall i :: 0 <= i < n ==> IsWhiteSpace(s[i])
    ensures n < |s| ==> !IsWhiteSpace(s[n])
  {
    if |s| > 0 && IsWhiteSpace(s[0]) then
      var n := LeadingWhiteSpace(s[1..]);
      assert forall i :: 1 <= i <= n ==> s[i] == s[1..][i - 1];
      1 + n
    else
      0
  }

  /** The number of white-space characters `s` ends with: all of them are white space, the one before is not. */
  function TrailingWhiteSpace(s: string): (n: nat)
    ensures n <= |s|
    ensures forall i :: |s| - n <= i < |s| ==> IsWhiteSpace(s[i])
    ensures n < |s| ==> !IsWhiteSpace(s[|s| - 1 - n])
  {
    if |s| > 0 && IsWhiteSpace(s[|s| - 1]) then
      var n := TrailingWhiteSpace(s[..|s| - 1]);
      assert forall i :: |s| - 1 - n <= i < |s| - 1 ==> s[i] == s[..|s| - 1][i];
      1 + n
    else
      0
  }

  /**
   * `s.trim()`: a contiguous slice of `s` that neither starts nor ends with white space,
   * and everything outside it is white space.
   */
  function Trim(s: string): (r: string)
    ensures LeadingWhiteSpace(s) + |r| <= |s|
    ensures r == s[LeadingWhiteSpace(s)..LeadingWhiteSpace(s) + |r|]
    ensures AllWhiteSpace(s[..LeadingWhiteSpace(s)])
    ensures AllWhiteSpace(s[LeadingWhiteSpace(s) + |r|..])
    ensures r == [] || (!IsWhiteSpace(r[0]) && !IsWhiteSpace(r[|r| - 1]))
  {
    var a := LeadingWhiteSpace(s);
    var b := if a == |s| then |s| else |s| - TrailingWhiteSpace(s);
    assert a <= b;
    s[a..b]
  }

  /** The trimmed string is empty exactly when the whole string is white space (`!s.trim()`). */
  lemma TrimEmptyIff(s: string)
    ensures Trim(s) == [] <==> AllWhiteSpace(s)
  {
    if Trim(s) == [] {
      assert s[..LeadingWhiteSpace(s)] + s[LeadingWhiteSpace(s)..] == s;
    }
  }

  /** A string without surrounding white space is its own trim. */
  lemma TrimOfTrimmed(s: string)
    requires s == [] || (!IsWhiteSpace(s[0]) && !IsWhiteSpace(s[|s| - 1]))
    ensures Trim(s) == s
  {
  }

  /** Trimming twice is trimming once. */
  lemma TrimIdempotent(s: string)
    ensures Trim(Trim(s)) == Trim(s)
  {
    TrimOfTrimmed(Trim(s));
  }

  /** `(w1 + x + w2).trim()` is `x` when the padding is white space and `x` has none at its ends. */
  lemma TrimOfPadded(w1: string, x: string, w2: string)
    requires AllWhiteSpace(w1) && AllWhiteSpace(w2)
    requires x != [] && !IsWhiteSpace(x[0]) && !IsWhiteSpace(x[|x| - 1])
    ensures Trim(w1 + x + w2) == x
  {
    var s := w1 + x + w2;
    assert s[|w1|] == x[0] && s[|w1| + |x| - 1] == x[|x| - 1];
    assert LeadingWhiteSpace(s) == |w1| by {
      assert forall i :: 0 <= i < |w1| ==> s[i] == w1[i];
    }
    assert TrailingWhiteSpace(s) == |w2| by {
      assert forall i :: |w1| + |x| <= i < |s| ==> s[i] == w2[i - |w1| - |x|];
    }
    assert s[|w1|..|w1| + |x|] == x;
  }
}
