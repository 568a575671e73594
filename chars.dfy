/**
 * Character classes of Python's `str` methods and `re` patterns.
 * The classes are exact for ASCII and Latin-1 (U+0000..U+00FF); above
 * U+00FF only the Unicode whitespace characters are classified.
 */
module Chars {

  /** NO-BREAK SPACE, U+00A0. */
  const Nbsp: char := '\U{A0}'

  /** `\d` in a pattern (ASCII digits). */
  predicate IsDigit(c: char) { '0' <= c <= '9' }

  function DigitValue(c: char): (v: nat)
    requires IsDigit(c)
    ensures v < 10
  {
    (c as int) - ('0' as int)
  }

  function DigitChar(v: nat): (c: char)
    requires v < 10
    ensures IsDigit(c) && DigitValue(c) == v
  {
    (('0' as int) + v) as char
  }

  /** `str.isdigit()`: the ASCII digits and the superscripts ¹ ² ³. */
  predicate IsPyDigit(c: char) {
    IsDigit(c) || c == '\U{B2}' || c == '\U{B3}' || c == '\U{B9}'
  }

  /** `str.isspace()`, `str.strip()` and `\s` in a pattern. */
  predicate IsSpace(c: char) {
    || c == ' '
    || '\t' <= c <= '\r'
    || '\U{1C}' <= c <= '\U{1F}'
    || c == '\U{85}' || c == '\U{A0}' || c == '\U{1680}'
    || '\U{2000}' <= c <= '\U{200A}'
    || c == '\U{2028}' || c == '\U{2029}' || c == '\U{202F}' || c == '\U{205F}' || c == '\U{3000}'
  }

  /** The line boundaries of `str.splitlines()`. */
  predicate IsLineBreak(c: char) {
    || '\n' <= c <= '\r'
    || '\U{1C}' <= c <= '\U{1E}'
    || c == '\U{85}' || c == '\U{2028}' || c == '\U{2029}'
  }

  /** `str.isalpha()`. */
  predicate IsAlpha(c: char) {
    || 'a' <= c <= 'z' || 'A' <= c <= 'Z'
    || c == '\U{AA}' || c == '\U{B5}' || c == '\U{BA}'
    || ('\U{C0}' <= c <= '\U{FF}' && c != '\U{D7}' && c != '\U{F7}')
  }

  /** `\w` in a pattern: letters, digits (including the superscripts and fractions) and `_`. */
  predicate IsWordChar(c: char) {
    IsAlpha(c) || IsPyDigit(c) || c == '_' || c == '\U{BC}' || c == '\U{BD}' || c == '\U{BE}'
  }

  /** `str.lower()` of one character. */
  function Lower(c: char): (l: char)
    ensures IsDigit(c) ==> l == c
  {
    if 'A' <= c <= 'Z' || ('\U{C0}' <= c <= '\U{DE}' && c != '\U{D7}') then ((c as int) + 32) as char else c
  }

  /** The characters that `str.upper()` changes. */
  predicate IsLowerCased(c: char) {
    'a' <= c <= 'z' || c == '\U{B5}' || ('\U{DF}' <= c <= '\U{FF}' && c != '\U{F7}')
  }
}
