/** ASCII case mapping and the two java.lang.String / java.lang.Boolean helpers
    the driver configuration relies on: toUpperCase, equalsIgnoreCase and
    Boolean.parseBoolean. */
module Strings {

  function UpperChar(c: char): char {
    if 'a' <= c <= 'z' then (c as int - 32) as char else c
  }

  function LowerChar(c: char): char {
    if 'A' <= c <= 'Z' then (c as int + 32) as char else c
  }

  /** String.toUpperCase, restricted to the ASCII letters. */
  function ToUpper(s: string): (r: string)
    ensures |r| == |s|
    ensures forall i :: 0 <= i < |s| ==> r[i] == UpperChar(s[i])
  {
    if s == [] then [] else [UpperChar(s[0])] + ToUpper(s[1..])
  }

  /** Two characters match ignoring case when they are equal, or equal after
      upper-casing, or equal after lower-casing (String.regionMatches). */
  predicate CharsMatchIgnoringCase(a: char, b: char) {
    a == b || UpperChar(a) == UpperChar(b) || LowerChar(UpperChar(a)) == LowerChar(UpperChar(b))
  }

  /** String.equalsIgnoreCase: same length, and every position matches ignoring case. */
  predicate EqualsIgnoreCase(a: string, b: string) {
    |a| == |b| && forall i :: 0 <= i < |a| ==> CharsMatchIgnoringCase(a[i], b[i])
  }

  /** Boolean.parseBoolean: true exactly for "true" in any letter case. */
  predicate ParseBoolean(s: string) {
    EqualsIgnoreCase(s, "true")
  }

  lemma UpperCharIdempotent(c: char)
    ensures UpperChar(UpperChar(c)) == UpperChar(c)
  {
  }

  lemma CharsMatchIffSameUpper(a: char, b: char)
    ensures CharsMatchIgnoringCase(a, b) <==> UpperChar(a) == UpperChar(b)
  {
  }

  /** Case-insensitive equality is equality of the upper-cased strings. */
  lemma EqualsIgnoreCaseIffSameUpper(a: string, b: string)
    ensures EqualsIgnoreCase(a, b) <==> ToUpper(a) == ToUpper(b)
  {
    if EqualsIgnoreCase(a, b) {
      forall i | 0 <= i < |a| ensures ToUpper(a)[i] == ToUpper(b)[i] {
        CharsMatchIffSameUpper(a[i], b[i]);
      }
    }
    if ToUpper(a) == ToUpper(b) {
      forall i | 0 <= i < |a| ensures CharsMatchIgnoringCase(a[i], b[i]) {
        assert ToUpper(a)[i] == ToUpper(b)[i];
        CharsMatchIffSameUpper(a[i], b[i]);
      }
    }
  }

  /** Upper-casing twice is upper-casing once. */
  lemma ToUpperIdempotent(s: string)
    ensures ToUpper(ToUpper(s)) == ToUpper(s)
  {
    forall i | 0 <= i < |s| ensures ToUpper(ToUpper(s))[i] == ToUpper(s)[i] {
      UpperCharIdempotent(s[i]);
    }
  }
}
