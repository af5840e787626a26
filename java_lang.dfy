/**
 * The fragments of the Java platform that the configuration resolver relies on:
 * the widths of `int` and `long`, `String.indexOf(char)` and
 * `Boolean.parseBoolean`.
 */
module JavaLang {

  /** Java `int`. */
  type Int32 = x: int | -0x8000_0000 <= x < 0x8000_0000

  /** Java `long`. */
  type Int64 = x: int | -0x8000_0000_0000_0000 <= x < 0x8000_0000_0000_0000

  /** `s.indexOf(c)`: the index of the first occurrence of `c` in `s`, or -1 when there is none. */
  function IndexOf(s: string, c: char): (r: int)
    ensures -1 <= r < |s|
    ensures r == -1 <==> c !in s
    ensures 0 <= r ==> s[r] == c && c !in s[..r]
  {
    if s == [] then -1
    else if s[0] == c then 0
    else
      var i := IndexOf(s[1..], c);
      assert s[1..][..if i < 0 then 0 else i] == s[1..if i < 0 then 1 else i + 1];
      if i == -1 then -1 else i + 1
  }

  function ToUpperAscii(c: char): char {
    if 'a' <= c <= 'z' then (c as int - 32) as char else c
  }

  function ToLowerAscii(c: char): char {
    if 'A' <= c <= 'Z' then (c as int + 32) as char else c
  }

  /**
   * The per-character test of `String.regionMatches(true, ...)`: equal, equal after
   * upper-casing, or equal after lower-casing the upper-cased characters.
   */
  predicate CharsEqualIgnoreCase(a: char, b: char) {
    a == b
    || ToUpperAscii(a) == ToUpperAscii(b)
    || ToLowerAscii(ToUpperAscii(a)) == ToLowerAscii(ToUpperAscii(b))
  }

  /**
   * `a.equalsIgnoreCase(b)` for a non-null `b` whose letters are all ASCII, such as
   * "true": case is mapped for ASCII letters only, where Java maps every Unicode letter.
   */
  predicate EqualsIgnoreCase(a: string, b: string) {
    |a| == |b| && forall i :: 0 <= i < |a| ==> CharsEqualIgnoreCase(a[i], b[i])
  }

  /** `s` with every ASCII upper-case letter lower-cased. */
  function LowerCase(s: string): (r: string)
    ensures |r| == |s|
    ensures forall i :: 0 <= i < |s| ==> r[i] == ToLowerAscii(s[i])
  {
    if s == [] then [] else [ToLowerAscii(s[0])] + LowerCase(s[1..])
  }

  /** `Boolean.parseBoolean(s)` for a non-null `s`: true exactly for "true" in any letter case. */
  predicate ParseBoolean(s: string) {
    EqualsIgnoreCase(s, "true")
  }

  /** The text Java accepts as `true` is precisely the text that lower-cases to "true". */
  lemma ParseBooleanIsLowerCaseTrue(s: string)
    ensures ParseBoolean(s) <==> LowerCase(s) == "true"
  {
  }

  /** Samples of the permissive parse: only a case variant of "true" is true, nothing fails. */
  lemma ParseBooleanSamples()
    ensures ParseBoolean("true") && ParseBoolean("True") && ParseBoolean("TRUE")
    ensures !ParseBoolean("TRUEX") && !ParseBoolean("yes") && !ParseBoolean("") && !ParseBoolean("false")
  {
  }
}
