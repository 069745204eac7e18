/**
 * `String.prototype.trim`, as the settings form uses it to validate and
 * normalise a name: leading and trailing white space is removed.
 */
module Text {

  /**
   * The code points `trim` strips: ECMAScript's WhiteSpace (tab, vertical
   * tab, form feed, zero width no-break space and every Unicode "Zs" space
   * separator) and LineTerminator (line feed, carriage return, line and
   * paragraph separators) productions of ECMA-262.
   */
  predicate IsWhitespace(c: char) {
    || c == '\t' || c == '\U{000B}' || c == '\U{000C}' || c == '\U{FEFF}'
    || c == ' ' || c == '\U{00A0}' || c == '\U{1680}' || ('\U{2000}' <= c <= '\U{200A}')
    || c == '\U{202F}' || c == '\U{205F}' || c == '\U{3000}'
    || c == '\n' || c == '\r' || c == '\U{2028}' || c == '\U{2029}'
  }

  predicate AllWhitespace(s: string) {
    forall i :: 0 <= i < |s| ==> IsWhitespace(s[i])
  }

  /** The first position at or after `i` that does not hold white space, or `|s|`. */
  function SkipForward(s: string, i: nat): (k: nat)
    requires i <= |s|
    ensures i <= k <= |s|
    ensures forall j :: i <= j < k ==> IsWhitespace(s[j])
    ensures k < |s| ==> !IsWhitespace(s[k])
    decreases |s| - i
  {
    if i < |s| && IsWhitespace(s[i]) then SkipForward(s, i + 1) else i
  }

  /** The position just after the last character before `j`, down to `lo`, that is not white space. */
  function SkipBackward(s: string, lo: nat, j: nat): (k: nat)
    requires lo <= j <= |s|
    ensures lo <= k <= j
    ensures forall m :: k <= m < j ==> IsWhitespace(s[m])
    ensures k > lo ==> !IsWhitespace(s[k - 1])
    decreases j
  {
    if j > lo && IsWhitespace(s[j - 1]) then SkipBackward(s, lo, j - 1) else j
  }

  /** Where the trimmed text starts. */
  function TrimStart(s: string): nat {
    SkipForward(s, 0)
  }

  /** Where the trimmed text ends. */
  function TrimEnd(s: string): nat {
    SkipBackward(s, TrimStart(s), |s|)
  }

  /**
   * `s.trim()`: the slice of `s` left once the white space at both ends is
   * gone; it starts and ends with a character that is not white space.
   */
  function Trim(s: string): (r: string)
    ensures TrimStart(s) <= TrimEnd(s) <= |s| && r == s[TrimStart(s)..TrimEnd(s)]
    ensures forall j :: 0 <= j < TrimStart(s) ==> IsWhitespace(s[j])
    ensures forall j :: TrimEnd(s) <= j < |s| ==> IsWhitespace(s[j])
    ensures r != [] ==> !IsWhitespace(r[0]) && !IsWhitespace(r[|r| - 1])
  {
    var lo, hi := TrimStart(s), TrimEnd(s);
    assert lo < hi ==> s[lo..hi][0] == s[lo] && s[lo..hi][hi - lo - 1] == s[hi - 1];
    s[lo..hi]
  }

  /** Trimming leaves nothing exactly when the input is all white space. */
  lemma TrimEmptyIffBlank(s: string)
    ensures Trim(s) == [] <==> AllWhitespace(s)
  {
    var lo, hi := TrimStart(s), TrimEnd(s);
    if lo == hi {
      assert forall j :: 0 <= j < |s| ==> IsWhitespace(s[j]);
    }
  }

  /** Trimming an already-trimmed string changes nothing. */
  lemma TrimIdempotent(s: string)
    ensures Trim(Trim(s)) == Trim(s)
  {
    var t := Trim(s);
    if t != [] {
      assert TrimStart(t) == 0;
      assert TrimEnd(t) == |t|;
      assert t[0..|t|] == t;
    }
  }
}
