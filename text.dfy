/** The blank check the note editor applies to a draft before committing it:
    `s.trim()` is truthy exactly when `s` keeps a character after removing
    leading and trailing white space. */
module Text {

  /** The code points ECMAScript's `String.prototype.trim` removes: the
      WhiteSpace set (tab, vertical tab, form feed, space, no-break space,
      byte-order mark and every other "Zs" space separator) and the
      LineTerminator set (line feed, carriage return, line and paragraph
      separators). */
  predicate IsWhitespace(c: char)
  {
    || c == '\t' || c == '\n' || c == '\U{000B}' || c == '\U{000C}' || c == '\r'
    || c == ' ' || c == '\U{00A0}' || c == '\U{1680}'
    || ('\U{2000}' <= c <= '\U{200A}')
    || c == '\U{2028}' || c == '\U{2029}' || c == '\U{202F}' || c == '\U{205F}'
    || c == '\U{3000}' || c == '\U{FEFF}'
  }

  /** Every character of `s` is white space (the empty string included). */
  predicate IsBlank(s: string)
  {
    forall i :: 0 <= i < |s| ==> IsWhitespace(s[i])
  }

  /** `s` without its leading white space: a suffix of `s` that does not start
      with white space, and what was dropped is all white space. */
  function TrimStart(s: string): (r: string)
    ensures |r| <= |s| && r == s[|s| - |r|..]
    ensures forall i :: 0 <= i < |s| - |r| ==> IsWhitespace(s[i])
    ensures r == [] || !IsWhitespace(r[0])
  {
    if s != [] && IsWhitespace(s[0]) then TrimStart(s[1..]) else s
  }

  /** `s` without its trailing white space: a prefix of `s` that does not end
      with white space, and what was dropped is all white space. */
  function TrimEnd(s: string): (r: string)
    ensures |r| <= |s| && r == s[..|r|]
    ensures forall i :: |r| <= i < |s| ==> IsWhitespace(s[i])
    ensures r == [] || !IsWhitespace(r[|r| - 1])
  {
    if s != [] && IsWhitespace(s[|s| - 1]) then TrimEnd(s[..|s| - 1]) else s
  }

  /** `String.prototype.trim`: at most as long as `s`, and neither starting
      nor ending with white space. */
  function Trim(s: string): (r: string)
    ensures |r| <= |s|
    ensures r == [] || (!IsWhitespace(r[0]) && !IsWhitespace(r[|r| - 1]))
  {
    TrimEnd(TrimStart(s))
  }

  /** The string `trim` leaves is empty exactly when `s` is blank, so the
      truthiness test on `trim()` is a test for a non-white-space character. */
  lemma TrimEmptyIffBlank(s: string)
    ensures Trim(s) == [] <==> IsBlank(s)
  {
  }

  /** What `trim` keeps is the slice `s[k..k + |Trim(s)|]` of `s` for some `k`,
      and everything cut off before and after it is white space. */
  lemma TrimIsSlice(s: string) returns (k: nat)
    ensures k + |Trim(s)| <= |s|
    ensures Trim(s) == s[k..k + |Trim(s)|]
    ensures IsBlank(s[..k]) && IsBlank(s[k + |Trim(s)|..])
  {
    var t := TrimStart(s);
    k := |s| - |t|;
    var r := TrimEnd(t);
    assert s[k + |r|..] == t[|r|..];
  }
}
