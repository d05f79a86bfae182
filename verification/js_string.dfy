/**
 * The three JavaScript string operations the distribution logic relies on:
 * `String.prototype.trimEnd`, `String.prototype.includes` and the `length`
 * property, which counts UTF-16 code units rather than characters.
 * Strings are sequences of Unicode scalar values, so only well-formed UTF-16
 * text is represented; a lone surrogate is not.
 */
module JsString {

  /** The characters `trimEnd` removes: ECMAScript's WhiteSpace and LineTerminator. */
  predicate IsWhiteSpace(c: char) {
    || c == '\t' || c == '\n' || c == '\U{000B}' || c == '\U{000C}' || c == '\r'
    || c == ' ' || c == '\U{00A0}' || c == '\U{1680}'
    || ('\U{2000}' <= c <= '\U{200A}')
    || c == '\U{2028}' || c == '\U{2029}' || c == '\U{202F}' || c == '\U{205F}'
    || c == '\U{3000}' || c == '\U{FEFF}'
  }

  /**
   * `s.trimEnd()`: the longest prefix of `s` that does not end in white space;
   * everything cut off is white space.
   */
  function TrimEnd(s: string): (r: string)
    ensures |r| <= |s| && r == s[..|r|]
    ensures forall i :: |r| <= i < |s| ==> IsWhiteSpace(s[i])
    ensures r == [] || !IsWhiteSpace(r[|r| - 1])
  {
    if s != [] && IsWhiteSpace(s[|s| - 1]) then TrimEnd(s[..|s| - 1]) else s
  }

  /**
   * `s.trimEnd().includes(' ')` fails exactly when every space of `s` lies in
   * its trailing white space.
   */
  lemma NoSpaceAfterTrimEnd(s: string)
    ensures ' ' !in TrimEnd(s) <==>
      forall i :: 0 <= i < |s| && s[i] == ' ' ==> forall j :: i <= j < |s| ==> IsWhiteSpace(s[j])
  {
    var r := TrimEnd(s);
    if ' ' in r {
      var i :| 0 <= i < |r| && r[i] == ' ';
      assert s[i] == ' ' && !IsWhiteSpace(s[|r| - 1]);
    }
  }

  predicate StartsWith(s: string, prefix: string) {
    |prefix| <= |s| && s[..|prefix|] == prefix
  }

  /** `s.includes(part)`: `part` occurs in `s` at some position. */
  function Includes(s: string, part: string): (r: bool)
    ensures r <==> exists i :: 0 <= i <= |s| && StartsWith(s[i..], part)
    decreases |s|
  {
    if StartsWith(s, part) then
      assert StartsWith(s[0..], part);
      true
    else if s == [] then
      false
    else
      var rest := Includes(s[1..], part);
      assert forall i :: 1 <= i <= |s| ==> s[i..] == s[1..][i - 1..];
      assert rest ==> exists i :: 0 <= i <= |s| && StartsWith(s[i..], part);
      rest
  }

  /** Number of UTF-16 code units of one character: two for a character outside the Basic Multilingual Plane. */
  function CodeUnits(c: char): nat {
    if c as int < 0x1_0000 then 1 else 2
  }

  /** `s.length` in JavaScript: the number of UTF-16 code units of `s`. */
  function Utf16Length(s: string): (n: nat)
    ensures |s| <= n <= 2 * |s|
  {
    if s == [] then 0 else CodeUnits(s[0]) + Utf16Length(s[1..])
  }

  /** On text without astral characters the JavaScript length is the number of characters. */
  lemma {:induction false} Utf16LengthOfBmpText(s: string)
    requires forall i :: 0 <= i < |s| ==> s[i] as int < 0x1_0000
    ensures Utf16Length(s) == |s|
  {
    if s != [] {
      Utf16LengthOfBmpText(s[1..]);
    }
  }
}
