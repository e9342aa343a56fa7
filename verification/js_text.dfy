/** The JavaScript notion of white space, shared by `String.prototype.trim`
    and by the `\s` class of regular expressions. */
module JsText {

  /** ECMAScript WhiteSpace and LineTerminator code points: the set that
      `trim` removes and that `\s` matches. */
  const JsWhitespace: set<char> := {
    '\t', '\n', '\U{000B}', '\U{000C}', '\r', ' ', '\U{00A0}', '\U{1680}',
    '\U{2000}', '\U{2001}', '\U{2002}', '\U{2003}', '\U{2004}', '\U{2005}',
    '\U{2006}', '\U{2007}', '\U{2008}', '\U{2009}', '\U{200A}',
    '\U{2028}', '\U{2029}', '\U{202F}', '\U{205F}', '\U{3000}', '\U{FEFF}'
  }

  predicate IsJsWhitespace(c: char) {
    c in JsWhitespace
  }

  /** Every character of `s` is white space (vacuously so for ""). */
  predicate AllWhitespace(s: string) {
    forall i :: 0 <= i < |s| ==> IsJsWhitespace(s[i])
  }

  /** `r` appears in `s` starting at index `lo`. */
  predicate OccursAt(r: string, s: string, lo: int) {
    0 <= lo && lo + |r| <= |s| && s[lo..lo + |r|] == r
  }

  /** Drops leading white space: the result is the suffix of `s` that starts
      at its first non-white-space character. */
  function TrimStart(s: string): (r: string)
    ensures |r| <= |s| && r == s[|s| - |r|..]
    ensures AllWhitespace(s[..|s| - |r|])
    ensures r == [] || !IsJsWhitespace(r[0])
  {
    if s != [] && IsJsWhitespace(s[0]) then TrimStart(s[1..]) else s
  }

  /** Drops trailing white space: the result is the prefix of `s` that ends
      at its last non-white-space character. */
  function TrimEnd(s: string): (r: string)
    ensures |r| <= |s| && r == s[..|r|]
    ensures AllWhitespace(s[|r|..])
    ensures r == [] || !IsJsWhitespace(r[|r| - 1])
  {
    if s != [] && IsJsWhitespace(s[|s| - 1]) then TrimEnd(s[..|s| - 1]) else s
  }

  /** `s.trim()`: the result is a contiguous part of `s` with only white space
      before and after it, and no white space at either of its own ends; it is
      empty exactly when `s` is all white space. */
  function Trim(s: string): (r: string)
    ensures exists lo :: OccursAt(r, s, lo) && AllWhitespace(s[..lo]) && AllWhitespace(s[lo + |r|..])
    ensures r == [] <==> AllWhitespace(s)
    ensures r != [] ==> !IsJsWhitespace(r[0]) && !IsJsWhitespace(r[|r| - 1])
  {
    var front := TrimStart(s);
    var r := TrimEnd(front);
    BlankIffTrimmedEmpty(s, front, r);
    TrimmedPartOf(s, front, r);
    r
  }

  /** What the two trims cut off is white space on both sides of `r`. */
  lemma TrimmedPartOf(s: string, front: string, r: string)
    requires |front| <= |s| && front == s[|s| - |front|..] && AllWhitespace(s[..|s| - |front|])
    requires |r| <= |front| && r == front[..|r|] && AllWhitespace(front[|r|..])
    ensures exists lo :: OccursAt(r, s, lo) && AllWhitespace(s[..lo]) && AllWhitespace(s[lo + |r|..])
  {
    var lo := |s| - |front|;
    PrefixOfSuffixOccurs(s, front, r);
    assert s[lo + |r|..] == front[|r|..];
    assert OccursAt(r, s, lo) && AllWhitespace(s[..lo]) && AllWhitespace(s[lo + |r|..]);
  }

  /** A prefix of a suffix of `s` is a contiguous part of `s`. */
  lemma PrefixOfSuffixOccurs(s: string, front: string, r: string)
    requires |front| <= |s| && front == s[|s| - |front|..]
    requires |r| <= |front| && r == front[..|r|]
    ensures OccursAt(r, s, |s| - |front|)
  {
    var k := |s| - |front|;
    assert s[k..][..|r|] == s[k..k + |r|];
  }

  /** The two trims leave nothing exactly when every character was white space. */
  lemma BlankIffTrimmedEmpty(s: string, front: string, r: string)
    requires front == TrimStart(s) && r == TrimEnd(front)
    ensures r == [] <==> AllWhitespace(s)
  {
    // When nothing is left, TrimStart already consumed everything: its
    // result either is empty or starts with a non-white-space character.
  }
}
