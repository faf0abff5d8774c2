/**
 * `String.prototype.trim` as both core files use it: it removes leading and
 * trailing white space and line terminators (sections 12.2 and 12.3 of the
 * ECMAScript 2024 Language Specification, ECMA-262), and nothing else.
 */
module Text {

  /**
   * The characters `trim` removes: TAB, VT, FF, ZWNBSP, the Unicode space
   * separators (category Zs) and the four line terminators LF, CR, LS, PS.
   */
  predicate IsWhitespace(c: char)
  {
    c in {'\t', '\U{000B}', '\U{000C}', '\U{FEFF}',
          ' ', '\U{00A0}', '\U{1680}', '\U{2000}', '\U{2001}', '\U{2002}', '\U{2003}',
          '\U{2004}', '\U{2005}', '\U{2006}', '\U{2007}', '\U{2008}', '\U{2009}', '\U{200A}',
          '\U{202F}', '\U{205F}', '\U{3000}',
          '\n', '\r', '\U{2028}', '\U{2029}'}
  }

  /** True when every character of `s` is white space (also when `s` is empty). */
  predicate IsBlank(s: string)
  {
    forall i :: 0 <= i < |s| ==> IsWhitespace(s[i])
  }

  /** `s` with its leading white space removed: the longest suffix that does not start with white space. */
  function TrimStart(s: string): (r: string)
    ensures |r| <= |s| && r == s[|s| - |r|..]
    ensures forall i :: 0 <= i < |s| - |r| ==> IsWhitespace(s[i])
    ensures r == [] || !IsWhitespace(r[0])
    decreases |s|
  {
    if |s| > 0 && IsWhitespace(s[0]) then TrimStart(s[1..]) else s
  }

  /** `s` with its trailing white space removed: the longest prefix that does not end with white space. */
  function TrimEnd(s: string): (r: string)
    ensures |r| <= |s| && r == s[..|r|]
    ensures forall i :: |r| <= i < |s| ==> IsWhitespace(s[i])
    ensures r == [] || !IsWhitespace(r[|r| - 1])
    decreases |s|
  {
    if |s| > 0 && IsWhitespace(s[|s| - 1]) then TrimEnd(s[..|s| - 1]) else s
  }

  /** `s.trim()` */
  function Trim(s: string): (r: string)
    ensures IsBlank(s) <==> r == []
    ensures r == [] || (!IsWhitespace(r[0]) && !IsWhitespace(r[|r| - 1]))
    ensures |r| <= |TrimStart(s)| && r == TrimStart(s)[..|r|]
    ensures forall i :: |r| <= i < |TrimStart(s)| ==> IsWhitespace(TrimStart(s)[i])
  {
    TrimEnd(TrimStart(s))
  }

  /** Trimming only removes characters at the two ends, so a string whose ends are not white space is kept whole. */
  lemma {:induction false} TrimKeepsUnpadded(s: string)
    requires s != [] && !IsWhitespace(s[0]) && !IsWhitespace(s[|s| - 1])
    ensures Trim(s) == s
  {
    assert TrimStart(s) == s;
    assert TrimEnd(s) == s;
  }

  /** Trimming twice is trimming once. */
  lemma {:induction false} TrimIdempotent(s: string)
    ensures Trim(Trim(s)) == Trim(s)
  {
    var r := Trim(s);
    if r != [] {
      TrimKeepsUnpadded(r);
    }
  }
}
