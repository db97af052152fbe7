/**
 * Python's `str.upper()`, as far as it can matter to comparing a string
 * with an upper-case ASCII word.
 */
module CaseMapping {

  /**
   * The upper-case form of one character: ASCII letters, and the
   * non-ASCII characters whose upper-case form is pure ASCII (sharp s, dotless
   * i, long s and the Latin ligatures).  Every other character is kept.
   */
  function UpperChar(c: char): (r: string)
    ensures 1 <= |r| <= 3
    ensures c as int < 0x80 ==> r == [AsciiUpper(c)]
    ensures forall i :: 0 <= i < |r| ==> !IsLowerAscii(r[i])
  {
    if c as int < 0x80 then [AsciiUpper(c)]
    else if c == 'ß' then "SS"
    else if c == 'ı' then "I"
    else if c == 'ſ' then "S"
    else if c == 'ﬀ' then "FF"
    else if c == 'ﬁ' then "FI"
    else if c == 'ﬂ' then "FL"
    else if c == 'ﬃ' then "FFI"
    else if c == 'ﬄ' then "FFL"
    else if c == 'ﬅ' || c == 'ﬆ' then "ST"
    else [c]
  }

  /** Upper-case form of an ASCII character. */
  function AsciiUpper(c: char): char {
    if 'a' <= c <= 'z' then (c as int - 32) as char else c
  }

  /** `str.upper()`: each character's upper-case form, in order. */
  function Upper(s: string): (r: string)
    ensures |s| <= |r| <= 3 * |s|
    ensures forall i :: 0 <= i < |r| ==> !IsLowerAscii(r[i])
  {
    if s == [] then "" else UpperChar(s[0]) + Upper(s[1..])
  }

  predicate IsLowerAscii(c: char) {
    'a' <= c <= 'z'
  }

  predicate IsAscii(s: string) {
    forall i :: 0 <= i < |s| ==> s[i] as int < 0x80
  }

  /** ASCII characters equal up to letter case. */
  predicate SameLetterIgnoringCase(a: char, b: char) {
    a == b || ('a' <= a <= 'z' && b as int == a as int - 32) || ('a' <= b <= 'z' && a as int == b as int - 32)
  }

  /** On ASCII text, `Upper` maps character by character. */
  lemma {:induction false} UpperAscii(s: string)
    requires IsAscii(s)
    ensures |Upper(s)| == |s|
    ensures forall i :: 0 <= i < |s| ==> Upper(s)[i] == AsciiUpper(s[i])
  {
    if s != [] {
      UpperAscii(s[1..]);
    }
  }

  /** Against a character that is not a lower-case letter, equal up to case means equal after upper-casing. */
  lemma SameLetterIffUpper(a: char, b: char)
    requires !('a' <= b <= 'z')
    ensures SameLetterIgnoringCase(a, b) <==> AsciiUpper(a) == b
  {
  }

  /**
   * For an ASCII string `s` and a word `w` without lower-case letters,
   * `s.upper() == w` exactly when `s` spells `w` in any mix of letter cases.
   */
  lemma UpperMatchesIgnoringCase(s: string, w: string)
    requires IsAscii(s)
    requires forall i :: 0 <= i < |w| ==> !('a' <= w[i] <= 'z')
    ensures Upper(s) == w <==>
      |s| == |w| && forall i :: 0 <= i < |s| ==> SameLetterIgnoringCase(s[i], w[i])
  {
    UpperAscii(s);
    var u := Upper(s);
    if |s| == |w| {
      forall i | 0 <= i < |s|
        ensures SameLetterIgnoringCase(s[i], w[i]) <==> u[i] == w[i]
      {
        SameLetterIffUpper(s[i], w[i]);
      }
      assert u == w <==> forall i :: 0 <= i < |s| ==> u[i] == w[i];
    }
  }
}
