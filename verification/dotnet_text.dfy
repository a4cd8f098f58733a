/**
 * The few .NET string services the controller relies on: `string.IsNullOrEmpty`,
 * `string.IsNullOrWhiteSpace`, `char.IsWhiteSpace` and `Int32.ToString()`.
 * A C# `string` that may be null is an `Option<string>`. A Dafny string is a
 * sequence of Unicode scalar values, while .NET's `Length` counts UTF-16 code
 * units; `Utf16Length` converts between the two.
 */
module DotNetText {
  import opened Wrappers

  /** A 32-bit signed integer, the underlying type of a C# enum cast with `(int)`. */
  type Int32 = x: int | -0x8000_0000 <= x < 0x8000_0000

  predicate IsNullOrEmpty(s: Option<string>) {
    s.None? || s.value == ""
  }

  /** `char.IsWhiteSpace`: the Unicode separators Zs, Zl, Zp plus U+0009..U+000D and U+0085. */
  predicate IsWhiteSpace(c: char) {
    || '\U{9}' <= c <= '\U{D}'
    || c == ' ' || c == '\U{85}' || c == '\U{A0}' || c == '\U{1680}'
    || '\U{2000}' <= c <= '\U{200A}'
    || c == '\U{2028}' || c == '\U{2029}' || c == '\U{202F}' || c == '\U{205F}' || c == '\U{3000}'
  }

  predicate AllWhiteSpace(s: string) {
    forall i :: 0 <= i < |s| ==> IsWhiteSpace(s[i])
  }

  predicate IsNullOrWhiteSpace(s: Option<string>) {
    s.None? || AllWhiteSpace(s.value)
  }

  /** A character outside the Basic Multilingual Plane, which UTF-16 writes as a surrogate pair. */
  predicate IsSupplementary(c: char) {
    c >= '\U{10000}'
  }

  /** `string.Length`: the number of UTF-16 code units, two for each supplementary character. */
  function Utf16Length(s: string): (n: nat)
    ensures |s| <= n <= 2 * |s|
  {
    if s == [] then 0 else (if IsSupplementary(s[0]) then 2 else 1) + Utf16Length(s[1..])
  }

  /** Text made only of Basic Multilingual Plane characters has one code unit per character. */
  lemma {:induction false} BmpLength(s: string)
    requires forall i :: 0 <= i < |s| ==> !IsSupplementary(s[i])
    ensures Utf16Length(s) == |s|
  {
    if s != [] {
      BmpLength(s[1..]);
    }
  }

  /** Text made only of supplementary characters has two code units per character. */
  lemma {:induction false} SupplementaryLength(s: string)
    requires forall i :: 0 <= i < |s| ==> IsSupplementary(s[i])
    ensures Utf16Length(s) == 2 * |s|
  {
    if s != [] {
      SupplementaryLength(s[1..]);
    }
  }

  predicate IsDigit(c: char) {
    '0' <= c <= '9'
  }

  predicate AllDigits(s: string) {
    forall i :: 0 <= i < |s| ==> IsDigit(s[i])
  }

  function DigitChar(d: nat): (c: char)
    requires d < 10
    ensures IsDigit(c) && DigitValue(c) == d
  {
    ('0' as int + d) as char
  }

  function DigitValue(c: char): (d: nat)
    requires IsDigit(c)
    ensures d < 10
  {
    c as int - '0' as int
  }

  /** Decimal digits of `n`, most significant first, with no leading zero. */
  function NatToDecimal(n: nat): (s: string)
    ensures 0 < |s| && AllDigits(s)
    ensures 1 < |s| ==> s[0] != '0'
  {
    if n < 10 then [DigitChar(n)] else NatToDecimal(n / 10) + [DigitChar(n % 10)]
  }

  /** The value of a string of decimal digits (the empty string reads as 0). */
  function DecimalValue(s: string): nat
    requires AllDigits(s)
  {
    if s == [] then 0 else DecimalValue(s[..|s| - 1]) * 10 + DigitValue(s[|s| - 1])
  }

  /** `Int32.ToString()` with the invariant negative sign. */
  function Int32ToString(n: Int32): string {
    if n < 0 then "-" + NatToDecimal(-(n as int)) else NatToDecimal(n)
  }

  /** Reads back an optionally signed decimal integer: the inverse of Int32ToString. */
  function ParseInt(s: string): Option<int> {
    if 1 < |s| && s[0] == '-' && AllDigits(s[1..]) then Some(-(DecimalValue(s[1..]) as int))
    else if 0 < |s| && AllDigits(s) then Some(DecimalValue(s))
    else None
  }

  lemma {:induction false} DecimalRoundTrip(n: nat)
    ensures DecimalValue(NatToDecimal(n)) == n
  {
    if n >= 10 {
      var s := NatToDecimal(n);
      assert s[..|s| - 1] == NatToDecimal(n / 10);
      DecimalRoundTrip(n / 10);
    }
  }

  lemma ParseSigned(d: string)
    requires 0 < |d| && AllDigits(d)
    ensures ParseInt("-" + d) == Some(-(DecimalValue(d) as int))
    ensures ParseInt(d) == Some(DecimalValue(d) as int)
  {
    assert ("-" + d)[1..] == d;
    assert !IsDigit('-');
  }

  /** The decimal text of an integer reads back as that integer. */
  lemma Int32RoundTrip(n: Int32)
    ensures ParseInt(Int32ToString(n)) == Some(n as int)
  {
    var m: nat := if n < 0 then -(n as int) else n as int;
    DecimalRoundTrip(m);
    ParseSigned(NatToDecimal(m));
  }
}
