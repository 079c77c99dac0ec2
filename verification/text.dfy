/** Character classes and case mappings used by the validators and the
    dispatcher. Characters are the UTF-16 code units of a .NET string; a
    character outside the Basic Multilingual Plane stands for its surrogate
    pair, neither half of which belongs to any class below. */
module Text {

  predicate IsAsciiUpper(c: char) { 'A' <= c <= 'Z' }

  predicate IsAsciiLower(c: char) { 'a' <= c <= 'z' }

  predicate IsAsciiLetter(c: char) { IsAsciiUpper(c) || IsAsciiLower(c) }

  predicate IsAsciiDigit(c: char) { '0' <= c <= '9' }

  /** The regex class `[A-Za-z0-9]`. */
  predicate IsAsciiAlphaNumeric(c: char) { IsAsciiLetter(c) || IsAsciiDigit(c) }

  /** The code point of the digit zero of every run of ten decimal digits
      (Unicode general category Nd) inside the Basic Multilingual Plane. */
  const DigitZeros: seq<int> := [
    0x0030, 0x0660, 0x06F0, 0x07C0, 0x0966, 0x09E6, 0x0A66, 0x0AE6,
    0x0B66, 0x0BE6, 0x0C66, 0x0CE6, 0x0D66, 0x0DE6, 0x0E50, 0x0ED0,
    0x0F20, 0x1040, 0x1090, 0x17E0, 0x1810, 0x1946, 0x19D0, 0x1A80,
    0x1A90, 0x1B50, 0x1BB0, 0x1C40, 0x1C50, 0xA620, 0xA8D0, 0xA900,
    0xA9D0, 0xA9F0, 0xAA50, 0xABF0, 0xFF10
  ]

  /** The .NET regex class `\d`: any Unicode decimal digit, not only `0`-`9`. */
  predicate IsDecimalDigit(c: char) {
    exists k :: 0 <= k < |DigitZeros| && DigitZeros[k] <= c as int < DigitZeros[k] + 10
  }

  lemma AsciiDigitIsDecimalDigit(c: char)
    ensures IsAsciiDigit(c) ==> IsDecimalDigit(c)
  {
    if IsAsciiDigit(c) {
      assert DigitZeros[0] <= c as int < DigitZeros[0] + 10;
    }
  }

  /** `char.ToLower` restricted to ASCII: only `A`-`Z` change. */
  function LowerChar(c: char): char {
    if IsAsciiUpper(c) then (c as int + 32) as char else c
  }

  /** `char.ToUpperInvariant` restricted to ASCII: only `a`-`z` change. */
  function UpperChar(c: char): char {
    if IsAsciiLower(c) then (c as int - 32) as char else c
  }

  /** `string.ToLower()`, character by character. */
  function AsciiLower(s: string): (r: string)
    ensures |r| == |s|
    ensures forall i :: 0 <= i < |s| ==> r[i] == LowerChar(s[i])
  {
    seq(|s|, i requires 0 <= i < |s| => LowerChar(s[i]))
  }

  /** `string.Equals(a, b, StringComparison.OrdinalIgnoreCase)`: equal
      lengths and equal upper-cased characters position by position. */
  predicate EqualsOrdinalIgnoreCase(a: string, b: string) {
    |a| == |b| && forall i :: 0 <= i < |a| ==> UpperChar(a[i]) == UpperChar(b[i])
  }

  /** A string that lower-casing leaves unchanged, such as a `case` constant. */
  predicate IsLowerCaseText(s: string) {
    forall i :: 0 <= i < |s| ==> LowerChar(s[i]) == s[i]
  }

  lemma LowerUpperAgree(a: char, b: char)
    ensures LowerChar(a) == LowerChar(b) <==> UpperChar(a) == UpperChar(b)
  {
  }

  /** Switching on `s.ToLower()` against a lower-case `case` constant is exactly the
      ordinal case-insensitive comparison of `s` with that constant. */
  lemma LowerMatchesIgnoreCase(s: string, name: string)
    requires IsLowerCaseText(name)
    ensures AsciiLower(s) == name <==> EqualsOrdinalIgnoreCase(s, name)
  {
    if AsciiLower(s) == name {
      forall i | 0 <= i < |s|
        ensures UpperChar(s[i]) == UpperChar(name[i])
      {
        LowerUpperAgree(s[i], name[i]);
      }
    }
    if EqualsOrdinalIgnoreCase(s, name) {
      forall i | 0 <= i < |s|
        ensures AsciiLower(s)[i] == name[i]
      {
        LowerUpperAgree(s[i], name[i]);
      }
    }
  }
}
