/** Identifiers: a UUID is a 128-bit number with a 36-character text. */
module Uuids {
  import opened Wrappers
  import opened Text

  function Pow16(k: nat): (p: nat)
    ensures p > 0
  {
    if k == 0 then 1 else 16 * Pow16(k - 1)
  }

  type Uuid = n: nat | n < Pow16(32) witness 0

  function HexChar(d: nat): (c: char)
    requires d < 16
    ensures !IsSpace(c)
  {
    if d < 10 then '0' + d as char else 'a' + (d - 10) as char
  }

  /** The low k hexadecimal digits of n, most significant first. */
  function HexDigits(n: nat, k: nat): (s: string)
    ensures |s| == k
    ensures forall i :: 0 <= i < k ==> !IsSpace(s[i])
  {
    if k == 0 then "" else HexDigits(n / 16, k - 1) + [HexChar(n % 16)]
  }

  function DigitValue(c: char): Option<nat> {
    if '0' <= c <= '9' then Some(c as int - '0' as int)
    else if 'a' <= c <= 'f' then Some(c as int - 'a' as int + 10)
    else if 'A' <= c <= 'F' then Some(c as int - 'A' as int + 10)
    else None
  }

  function HexValue(s: string): (r: Option<nat>)
    ensures r.Some? ==> r.value < Pow16(|s|)
  {
    if s == "" then Some(0)
    else
      var high :- HexValue(s[..|s| - 1]);
      var low :- DigitValue(s[|s| - 1]);
      Some(16 * high + low)
  }

  lemma {:induction false} HexRoundTrip(n: nat, k: nat)
    requires n < Pow16(k)
    ensures HexValue(HexDigits(n, k)) == Some(n)
  {
    if k > 0 {
      var high, c := HexDigits(n / 16, k - 1), HexChar(n % 16);
      assert HexDigits(n, k) == high + [c];
      assert (high + [c])[..k - 1] == high;
      HexRoundTrip(n / 16, k - 1);
      assert DigitValue(c) == Some(n % 16);
    }
  }

  /** The canonical lower-case text, 8-4-4-4-12. */
  function UuidText(u: Uuid): (s: string)
    ensures |s| == 36
  {
    Group(HexDigits(u, 32))
  }

  function Group(h: string): (s: string)
    requires |h| == 32
    ensures |s| == 36
  {
    h[..8] + "-" + h[8..12] + "-" + h[12..16] + "-" + h[16..20] + "-" + h[20..]
  }

  lemma Ungroup(h: string)
    requires |h| == 32
    ensures var s := Group(h);
            && s[8] == '-' && s[13] == '-' && s[18] == '-' && s[23] == '-'
            && s[0] == h[0] && s[35] == h[31]
            && s[..8] + s[9..13] + s[14..18] + s[19..23] + s[24..] == h
  {
    var s := Group(h);
    assert s[..8] == h[..8] && s[9..13] == h[8..12] && s[14..18] == h[12..16]
        && s[19..23] == h[16..20] && s[24..] == h[20..];
    assert s[..8] + s[9..13] + s[14..18] + s[19..23] + s[24..] == h;
  }

  /** Reads the 36-character form, hex digits in either case. */
  function ParseUuid(s: string): Option<Uuid> {
    if |s| != 36 || s[8] != '-' || s[13] != '-' || s[18] != '-' || s[23] != '-' then None
    else
      var n :- HexValue(s[..8] + s[9..13] + s[14..18] + s[19..23] + s[24..]);
      Some(n)
  }

  lemma ParseUuidText(u: Uuid)
    ensures ParseUuid(UuidText(u)) == Some(u)
  {
    Ungroup(HexDigits(u, 32));
    HexRoundTrip(u, 32);
  }

  lemma {:induction false} HexDigitsLower(n: nat, k: nat)
    ensures forall i | 0 <= i < k :: '0' <= HexDigits(n, k)[i] <= '9' || 'a' <= HexDigits(n, k)[i] <= 'f'
  {
    if k > 0 {
      HexDigitsLower(n / 16, k - 1);
    }
  }

  /** The text is lower-case hexadecimal in groups of 8, 4, 4, 4 and 12. */
  lemma UuidTextShape(u: Uuid)
    ensures forall i | 0 <= i < 36 ::
              var c := UuidText(u)[i];
              if i in {8, 13, 18, 23} then c == '-' else '0' <= c <= '9' || 'a' <= c <= 'f'
  {
    HexDigitsLower(u, 32);
  }

  /** Two UUIDs with one text are one UUID. */
  lemma UuidTextInjective(u: Uuid, v: Uuid)
    requires UuidText(u) == UuidText(v)
    ensures u == v
  {
    ParseUuidText(u);
    ParseUuidText(v);
  }

  /** The text survives trimming, so parsing a stored id gives it back. */
  lemma UuidTextTrimmed(u: Uuid)
    ensures Trim(UuidText(u)) == UuidText(u)
  {
    Ungroup(HexDigits(u, 32));
    assert Trimmed(UuidText(u));
  }
}
