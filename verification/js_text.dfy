/**
  The part of JavaScript's `String.prototype.trim` that the to-do screen relies
  on: `task.trim()` is truthy exactly when the draft text has a character that
  is neither white space nor a line terminator.

  Strings are sequences of Unicode scalar values; every character `trim`
  removes lies in the Basic Multilingual Plane, so working on scalar values
  instead of UTF-16 code units changes nothing here.
 */
module JsText {

  /** The ECMAScript WhiteSpace and LineTerminator characters: TAB, VT, FF,
      SPACE, NBSP, ZWNBSP, the other Space_Separator (Zs) characters, LF, CR,
      LINE SEPARATOR and PARAGRAPH SEPARATOR. */
  predicate IsWhitespace(c: char) {
    || c == '\t' || c == '\U{000B}' || c == '\U{000C}' || c == ' '
    || c == '\U{00A0}' || c == '\U{FEFF}'
    || c == '\U{1680}' || ('\U{2000}' <= c <= '\U{200A}')
    || c == '\U{202F}' || c == '\U{205F}' || c == '\U{3000}'
    || c == '\n' || c == '\r' || c == '\U{2028}' || c == '\U{2029}'
  }

  /** A blank string: empty, or white space only. */
  predicate IsBlank(s: string) {
    forall k :: 0 <= k < |s| ==> IsWhitespace(s[k])
  }

  /** `s` with its leading white space removed: a suffix of `s` that starts
      with a non-white-space character (or is empty), everything dropped
      being white space. */
  function TrimStart(s: string): (r: string)
    ensures |r| <= |s| && r == s[|s| - |r|..]
    ensures forall k :: 0 <= k < |s| - |r| ==> IsWhitespace(s[k])
    ensures r != [] ==> !IsWhitespace(r[0])
    decreases |s|
  {
    if s != [] && IsWhitespace(s[0]) then TrimStart(s[1..]) else s
  }

  /** `s` with its trailing white space removed: a prefix of `s` that ends
      with a non-white-space character (or is empty), everything dropped
      being white space. */
  function TrimEnd(s: string): (r: string)
    ensures |r| <= |s| && r == s[..|r|]
    ensures forall k :: |r| <= k < |s| ==> IsWhitespace(s[k])
    ensures r != [] ==> !IsWhitespace(r[|r| - 1])
    decreases |s|
  {
    if s != [] && IsWhitespace(s[|s| - 1]) then TrimEnd(s[..|s| - 1]) else s
  }

  /** `String.prototype.trim`: the result is empty exactly when the input is
      blank, and otherwise begins and ends with a non-white-space character. */
  function Trim(s: string): (r: string)
    ensures |r| <= |s|
    ensures r == [] <==> IsBlank(s)
    ensures r != [] ==> !IsWhitespace(r[0]) && !IsWhitespace(r[|r| - 1])
  {
    TrimEnd(TrimStart(s))
  }
}
