/** The string trimming that the schema's `trim: true` option applies to a
    value before it is validated: ECMAScript's `String.prototype.trim`, which
    removes white space and line terminators from both ends. */
module JsString {

  /** The ECMAScript WhiteSpace and LineTerminator code points: tab, vertical
      tab, form feed, the byte-order mark, every space separator (category Zs),
      line feed, carriage return, line separator and paragraph separator. */
  predicate IsWhitespace(c: char) {
    || c == '\t' || c == '\n' || c == '\U{000B}' || c == '\U{000C}' || c == '\r'
    || c == ' ' || c == '\U{00A0}' || c == '\U{1680}'
    || ('\U{2000}' <= c <= '\U{200A}')
    || c == '\U{2028}' || c == '\U{2029}' || c == '\U{202F}' || c == '\U{205F}'
    || c == '\U{3000}' || c == '\U{FEFF}'
  }

  /** Neither end of `s` is white space. */
  predicate Trimmed(s: string) {
    s == [] || (!IsWhitespace(s[0]) && !IsWhitespace(s[|s| - 1]))
  }

  /** The first index at or after `i` that does not hold white space, or `|s|`. */
  function SkipForward(s: string, i: nat): (j: nat)
    requires i <= |s|
    ensures i <= j <= |s|
    ensures forall k :: i <= k < j ==> IsWhitespace(s[k])
    ensures j == |s| || !IsWhitespace(s[j])
    decreases |s| - i
  {
    if i < |s| && IsWhitespace(s[i]) then SkipForward(s, i + 1) else i
  }

  /** The least index `j`, not below `lo`, such that `s[j..hi]` is all white
      space. */
  function SkipBackward(s: string, lo: nat, hi: nat): (j: nat)
    requires lo <= hi <= |s|
    ensures lo <= j <= hi
    ensures forall k :: j <= k < hi ==> IsWhitespace(s[k])
    ensures j == lo || !IsWhitespace(s[j - 1])
  {
    if lo < hi && IsWhitespace(s[hi - 1]) then SkipBackward(s, lo, hi - 1) else hi
  }

  /** Where the content of `s` starts: after its longest white-space prefix. */
  function ContentStart(s: string): (i: nat)
    ensures i <= |s|
    ensures forall k :: 0 <= k < i ==> IsWhitespace(s[k])
    ensures i == |s| || !IsWhitespace(s[i])
  {
    SkipForward(s, 0)
  }

  /** Where the content of `s` ends: before its longest white-space suffix
      that does not reach into the leading white space. */
  function ContentEnd(s: string): (j: nat)
    ensures ContentStart(s) <= j <= |s|
    ensures forall k :: j <= k < |s| ==> IsWhitespace(s[k])
    ensures j == ContentStart(s) || !IsWhitespace(s[j - 1])
  {
    SkipBackward(s, ContentStart(s), |s|)
  }

  /** `String.prototype.trim`: the part of `s` left between its leading and
      its trailing white space. */
  function Trim(s: string): (r: string)
    ensures |r| <= |s|
    ensures Trimmed(r)
  {
    s[ContentStart(s)..ContentEnd(s)]
  }

  /** Trimming changes exactly the strings that have white space at an end. */
  lemma TrimFixedPoints(s: string)
    ensures Trim(s) == s <==> Trimmed(s)
  {
    if Trimmed(s) && s != [] {
      assert ContentStart(s) == 0;
      assert ContentEnd(s) == |s|;
    }
  }

  /** Trimming twice is trimming once. */
  lemma TrimIdempotent(s: string)
    ensures Trim(Trim(s)) == Trim(s)
  {
    TrimFixedPoints(Trim(s));
  }

  /** What trimming drops is white space, at the two ends only: the result is
      the slice of `s` between a white-space prefix and a white-space suffix. */
  lemma TrimDropsOnlyEdgeWhitespace(s: string)
    ensures ContentStart(s) + |Trim(s)| <= |s|
    ensures Trim(s) == s[ContentStart(s)..ContentStart(s) + |Trim(s)|]
    ensures forall k :: 0 <= k < ContentStart(s) ==> IsWhitespace(s[k])
    ensures forall k :: ContentStart(s) + |Trim(s)| <= k < |s| ==> IsWhitespace(s[k])
  {
  }

  /** Conversely, a slice of `s` with only white space outside it and none at
      its own ends is the trimmed string: `trim` has exactly one answer. */
  lemma TrimUnique(s: string, i: nat, j: nat)
    requires i <= j <= |s|
    requires forall k :: 0 <= k < i ==> IsWhitespace(s[k])
    requires forall k :: j <= k < |s| ==> IsWhitespace(s[k])
    requires Trimmed(s[i..j])
    ensures Trim(s) == s[i..j]
  {
    if i < j {
      assert s[i..j][0] == s[i];
      assert s[i..j][j - i - 1] == s[j - 1];
    }
  }
}
