/**
 * `System.Guid` as the 128-bit number its 32 hexadecimal digits spell, with
 * `Guid.Empty` (all zeros) and `Guid.ToString()`, whose default "D" format is
 * 32 lower-case hex digits grouped 8-4-4-4-12 by hyphens.
 */
module Guids {
  import opened Wrappers

  function Pow16(k: nat): (p: nat)
    ensures 0 < p
  {
    if k == 0 then 1 else 16 * Pow16(k - 1)
  }

  /** One value per string of 32 hex digits. */
  type Guid = n: nat | n < Pow16(32)

  /** `Guid.Empty`, the nil UUID. */
  const EmptyGuid: Guid := 0

  predicate IsHexDigit(c: char) {
    '0' <= c <= '9' || 'a' <= c <= 'f'
  }

  predicate AllHex(s: string) {
    forall i :: 0 <= i < |s| ==> IsHexDigit(s[i])
  }

  function HexChar(d: nat): (c: char)
    requires d < 16
    ensures IsHexDigit(c) && HexValue(c) == d
  {
    if d < 10 then ('0' as int + d) as char else ('a' as int + (d - 10)) as char
  }

  function HexValue(c: char): (d: nat)
    requires IsHexDigit(c)
    ensures d < 16
  {
    if c <= '9' then c as int - '0' as int else c as int - 'a' as int + 10
  }

  /** The low `width` hex digits of `n`, most significant first, zero-padded. */
  function ToHex(n: nat, width: nat): (s: string)
    ensures |s| == width && AllHex(s)
  {
    if width == 0 then [] else ToHex(n / 16, width - 1) + [HexChar(n % 16)]
  }

  function FromHex(s: string): (n: nat)
    requires AllHex(s)
    ensures n < Pow16(|s|)
  {
    if s == [] then 0 else FromHex(s[..|s| - 1]) * 16 + HexValue(s[|s| - 1])
  }

  lemma {:induction false} HexRoundTrip(n: nat, width: nat)
    requires n < Pow16(width)
    ensures FromHex(ToHex(n, width)) == n
  {
    if width > 0 {
      var s := ToHex(n, width);
      assert s[..|s| - 1] == ToHex(n / 16, width - 1);
      assert n / 16 < Pow16(width - 1);
      HexRoundTrip(n / 16, width - 1);
    }
  }

  /** `Guid.ToString()`: "xxxxxxxx-xxxx-xxxx-xxxx-xxxxxxxxxxxx". */
  function GuidToString(g: Guid): (s: string)
    ensures |s| == 36
  {
    var h := ToHex(g, 32);
    h[..8] + "-" + h[8..12] + "-" + h[12..16] + "-" + h[16..20] + "-" + h[20..]
  }

  /** Reads back the "D" text of a GUID; None for any other string. */
  function ReadGuid(s: string): Option<Guid> {
    if |s| == 36 && s[8] == '-' && s[13] == '-' && s[18] == '-' && s[23] == '-' then
      var h := s[..8] + s[9..13] + s[14..18] + s[19..23] + s[24..];
      if AllHex(h) then Some(FromHex(h)) else None
    else None
  }

  /** Distinct GUIDs have distinct texts: the text of a GUID reads back as that GUID. */
  lemma GuidTextRoundTrip(g: Guid)
    ensures ReadGuid(GuidToString(g)) == Some(g)
  {
    var h := ToHex(g, 32);
    var s := GuidToString(g);
    assert s[..8] == h[..8] && s[9..13] == h[8..12] && s[14..18] == h[12..16];
    assert s[19..23] == h[16..20] && s[24..] == h[20..];
    assert h == h[..8] + h[8..12] + h[12..16] + h[16..20] + h[20..];
    assert s[8] == '-' && s[13] == '-' && s[18] == '-' && s[23] == '-';
    assert s[..8] + s[9..13] + s[14..18] + s[19..23] + s[24..] == h;
    HexRoundTrip(g, 32);
  }

  lemma GuidToStringInjective(g1: Guid, g2: Guid)
    requires GuidToString(g1) == GuidToString(g2)
    ensures g1 == g2
  {
    GuidTextRoundTrip(g1);
    GuidTextRoundTrip(g2);
  }
}
