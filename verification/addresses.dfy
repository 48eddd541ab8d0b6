/** IPv4 addresses and prefixes: 32-bit addresses, dotted decimal text, and block overlap
    (prefix notation as in section 3.1 of RFC 4632). */
module Addresses {
  import opened Wrappers
  import opened Text

  const ADDRESSES: nat := 0x1_0000_0000

  type Address = n: nat | n < ADDRESSES witness 0

  type PrefixLength = n: nat | n <= 32 witness 0

  datatype Cidr = Cidr(base: Address, bits: PrefixLength)

  function Pow2(k: nat): (p: nat)
    ensures p > 0
  {
    if k == 0 then 1 else 2 * Pow2(k - 1)
  }

  /** How many addresses share a prefix of this length. */
  function BlockSize(bits: PrefixLength): (size: nat)
    ensures size > 0
  {
    Pow2(32 - bits)
  }

  /** Both agree once the host bits are masked away. */
  predicate Contains(c: Cidr, x: Address) {
    x / BlockSize(c.bits) == c.base / BlockSize(c.bits)
  }

  predicate CidrOverlap(a: Cidr, b: Cidr) {
    Contains(a, b.base) || Contains(b, a.base)
  }

  /** The host bits of a parsed prefix are zero. */
  predicate Masked(c: Cidr) {
    c.base % BlockSize(c.bits) == 0
  }

  /** A masked prefix contains the run of BlockSize addresses that starts at its base. */
  lemma ContainsIsBlock(c: Cidr, x: Address)
    requires Masked(c)
    ensures Contains(c, x) <==> c.base <= x < c.base + BlockSize(c.bits)
  {
    var s := BlockSize(c.bits);
    var k := c.base / s;
    assert c.base == k * s;
    if Contains(c, x) {
      assert x == (x / s) * s + x % s;
    } else if c.base <= x < c.base + s {
      QuotientUnique(x, k, x - c.base, s);
      assert false;
    }
  }

  lemma QuotientUnique(x: nat, q: nat, r: nat, s: nat)
    requires s > 0 && r < s && x == q * s + r
    ensures x / s == q
  {
    var d := x / s - q;
    assert x == (x / s) * s + x % s;
    assert d * s == r - x % s;
    TimesAtLeast(d, s);
  }

  lemma TimesAtLeast(d: int, s: nat)
    ensures d >= 1 ==> d * s >= s
    ensures d <= -1 ==> d * s <= 0 - s
  {
  }

  lemma {:induction false} Pow2Add(a: nat, b: nat)
    ensures Pow2(a + b) == Pow2(a) * Pow2(b)
  {
    if b == 0 {
      assert Pow2(b) == 1;
    } else {
      Pow2Add(a, b - 1);
      Doubled(Pow2(a), Pow2(b - 1));
    }
  }

  lemma Doubled(x: nat, y: nat)
    ensures 2 * (x * y) == x * (2 * y)
  {
  }

  lemma DivideTwice(x: nat, s: nat, k: nat)
    requires s > 0 && k > 0
    ensures s * k > 0 && x / (s * k) == (x / s) / k
  {
    var q, m, h := (x / s) / k, (x / s) % k, x % s;
    assert x / s == q * k + m;
    assert x == (x / s) * s + h;
    Regroup(q, k, m, s, h);
    TimesAtLeast(k - m, s);
    assert (k - m) * s == k * s - m * s;
    QuotientUnique(x, q, m * s + h, s * k);
  }

  lemma Regroup(q: nat, k: nat, m: nat, s: nat, h: nat)
    requires s > 0 && k > 0
    ensures s * k > 0
    ensures (q * k + m) * s + h == q * (s * k) + (m * s + h)
  {
    assert (q * k) * s == q * (s * k);
    assert (q * k + m) * s == (q * k) * s + m * s;
  }

  /** Sharing the longer prefix implies sharing the shorter one. */
  lemma LongerPrefixShared(x: Address, y: Address, long: PrefixLength, short: PrefixLength)
    requires short <= long && x / BlockSize(long) == y / BlockSize(long)
    ensures x / BlockSize(short) == y / BlockSize(short)
  {
    Pow2Add(32 - long, long - short);
    DivideTwice(x, BlockSize(long), Pow2(long - short));
    DivideTwice(y, BlockSize(long), Pow2(long - short));
  }

  /** The two base checks decide whether the two blocks share an address. */
  lemma CidrOverlapExact(a: Cidr, b: Cidr)
    ensures CidrOverlap(a, b) <==> exists x: Address :: Contains(a, x) && Contains(b, x)
  {
    if CidrOverlap(a, b) {
      assert Contains(a, a.base) && Contains(b, b.base);
    }
    forall x: Address | Contains(a, x) && Contains(b, x)
      ensures CidrOverlap(a, b)
    {
      if a.bits >= b.bits {
        LongerPrefixShared(x, a.base, a.bits, b.bits);
      } else {
        LongerPrefixShared(x, b.base, b.bits, a.bits);
      }
    }
  }

  // ----- text --------------------------------------------------------------------------

  predicate IsDigit(c: char) {
    '0' <= c <= '9'
  }

  function Digit(c: char): nat
    requires IsDigit(c)
  {
    c as int - '0' as int
  }

  /** A run of decimal digits, leading zeros allowed. */
  function ParseDecimal(s: string): Option<nat> {
    if s == "" || !IsDigit(s[|s| - 1]) then None
    else if |s| == 1 then Some(Digit(s[0]))
    else
      var high :- ParseDecimal(s[..|s| - 1]);
      Some(10 * high + Digit(s[|s| - 1]))
  }

  type Octet = n: nat | n < 256 witness 0

  /** One octet: no leading zero, at most 255. */
  function ParseOctet(s: string): Option<Octet> {
    if |s| > 1 && s[0] == '0' then None
    else
      var n :- ParseDecimal(s);
      if n < 256 then Some(n) else None
  }

  function FromParts(a: string, b: string, c: string, d: string): Option<Address> {
    var w :- ParseOctet(a);
    var x :- ParseOctet(b);
    var y :- ParseOctet(c);
    var z :- ParseOctet(d);
    Some(((w * 256 + x) * 256 + y) * 256 + z)
  }

  function ParseAddress(s: string): Option<Address> {
    var (a, s1, f1) := Cut(s, '.');
    var (b, s2, f2) := Cut(s1, '.');
    var (c, d, f3) := Cut(s2, '.');
    if f1 && f2 && f3 then FromParts(a, b, c, d) else None
  }

  /** The prefix a text denotes, with its host bits masked away. */
  function ParseCidr(s: string): (r: Option<Cidr>)
    ensures r.Some? ==> Masked(r.value)
  {
    var (address, bits, found) := Cut(s, '/');
    if !found then None
    else
      var x :- ParseAddress(address);
      var n :- ParseDecimal(bits);
      if n <= 32 then Some(MaskedPrefix(x, n)) else None
  }

  function MaskedPrefix(x: Address, n: PrefixLength): (c: Cidr)
    ensures Masked(c) && c.bits == n && Contains(c, x)
  {
    var s := BlockSize(n);
    MaskFacts(x, s);
    Cidr(x - x % s, n)
  }

  lemma MaskFacts(x: nat, s: nat)
    requires s > 0
    ensures 0 <= x - x % s <= x && (x - x % s) % s == 0 && (x - x % s) / s == x / s
  {
    var q := x / s;
    assert x == q * s + x % s;
    QuotientUnique(q * s, q, 0, s);
  }

  /** Decimal text without leading zeros. */
  function DecimalText(n: nat): (s: string)
    ensures s != "" && forall i | 0 <= i < |s| :: IsDigit(s[i])
    ensures |s| > 1 ==> s[0] != '0'
    ensures n > 0 ==> s[0] != '0'
  {
    if n < 10 then ['0' + n as char] else DecimalText(n / 10) + ['0' + (n % 10) as char]
  }

  lemma {:induction false} ParseDecimalText(n: nat)
    ensures ParseDecimal(DecimalText(n)) == Some(n)
  {
    var s := DecimalText(n);
    if n >= 10 {
      ParseDecimalText(n / 10);
      assert s[..|s| - 1] == DecimalText(n / 10);
      assert Digit(s[|s| - 1]) == n % 10;
    }
  }

  function AddressText(w: Octet, x: Octet, y: Octet, z: Octet): string {
    DecimalText(w) + "." + (DecimalText(x) + "." + (DecimalText(y) + "." + DecimalText(z)))
  }

  lemma OctetText(n: Octet)
    ensures ParseOctet(DecimalText(n)) == Some(n)
    ensures '.' !in DecimalText(n) && '/' !in DecimalText(n)
  {
    ParseDecimalText(n);
  }

  lemma FourParts(a: string, b: string, c: string, d: string)
    requires '.' !in a && '.' !in b && '.' !in c
    ensures ParseAddress(a + "." + (b + "." + (c + "." + d))) == FromParts(a, b, c, d)
  {
    hide ParseOctet, Cut;
    CutAt(a, '.', b + "." + (c + "." + d));
    CutAt(b, '.', c + "." + d);
    CutAt(c, '.', d);
  }

  lemma {:induction false} DecimalDigits(s: string)
    ensures ParseDecimal(s).Some? ==> '/' !in s
  {
    if s != "" {
      DecimalDigits(s[..|s| - 1]);
      assert s == s[..|s| - 1] + [s[|s| - 1]];
    }
  }

  /** Dotted decimal text denotes its address. */
  lemma ParseAddressText(w: Octet, x: Octet, y: Octet, z: Octet)
    ensures ParseAddress(AddressText(w, x, y, z)) == Some(((w * 256 + x) * 256 + y) * 256 + z)
  {
    hide DecimalText, ParseOctet, ParseAddress;
    OctetText(w);
    OctetText(x);
    OctetText(y);
    OctetText(z);
    FourParts(DecimalText(w), DecimalText(x), DecimalText(y), DecimalText(z));
  }

  /** With a prefix length after it, it is no address any more but the prefix. */
  lemma ParseCidrText(w: Octet, x: Octet, y: Octet, z: Octet, bits: PrefixLength)
    ensures ParseAddress(AddressText(w, x, y, z) + "/" + DecimalText(bits)).None?
    ensures ParseCidr(AddressText(w, x, y, z) + "/" + DecimalText(bits)) ==
              Some(MaskedPrefix(((w * 256 + x) * 256 + y) * 256 + z, bits))
  {
    hide DecimalText, ParseAddress, MaskedPrefix, Cut;
    OctetText(w);
    OctetText(x);
    OctetText(y);
    OctetText(z);
    var a, b, c, d, tail := DecimalText(w), DecimalText(x), DecimalText(y), DecimalText(z), "/" + DecimalText(bits);
    assert AddressText(w, x, y, z) + "/" + DecimalText(bits) == a + "." + (b + "." + (c + "." + (d + tail)));
    FourParts(a, b, c, d + tail);
    assert (d + tail)[|d|] == '/';
    DecimalDigits(d + tail);
    ParseAddressText(w, x, y, z);
    ParseDecimalText(bits);
    CutAt(AddressText(w, x, y, z), '/', DecimalText(bits));
  }

  // ----- the carrier-grade NAT block ------------------------------------------------------

  /** 100.64.0.0/10, section 7 of RFC 6598. */
  const CARRIER_GRADE_NAT: Cidr := Cidr(0x6440_0000, 10)

  predicate OverlapsCarrierGradeNat(value: string) {
    match ParseAddress(value)
    case Some(x) => Contains(CARRIER_GRADE_NAT, x)
    case None =>
      match ParseCidr(value)
      case Some(c) => CidrOverlap(c, CARRIER_GRADE_NAT)
      case None => false
  }

  /** The addresses a pattern stands for: one, a block, or none if it is a name. */
  ghost predicate Denotes(value: string, x: Address) {
    match ParseAddress(value)
    case Some(y) => x == y
    case None =>
      match ParseCidr(value)
      case Some(c) => c.base <= x < c.base + BlockSize(c.bits)
      case None => false
  }

  /** The check is exact: it holds precisely of the texts that denote an address between
      100.64.0.0 and 100.127.255.255. */
  lemma CarrierGradeNatExact(value: string)
    ensures OverlapsCarrierGradeNat(value) <==>
              exists x: Address :: Denotes(value, x) && 0x6440_0000 <= x <= 0x647F_FFFF
  {
    NatBlock();
    match ParseAddress(value)
    case Some(x) =>
      ContainsIsBlock(CARRIER_GRADE_NAT, x);
      assert Denotes(value, x);
    case None =>
      match ParseCidr(value)
      case Some(c) =>
        CidrOverlapExact(c, CARRIER_GRADE_NAT);
        forall x: Address
          ensures Denotes(value, x) && 0x6440_0000 <= x <= 0x647F_FFFF <==> Contains(c, x) && Contains(CARRIER_GRADE_NAT, x)
        {
          ContainsIsBlock(c, x);
          ContainsIsBlock(CARRIER_GRADE_NAT, x);
        }
      case None =>
  }

  lemma NatBlock()
    ensures BlockSize(10) == 0x40_0000 && Masked(CARRIER_GRADE_NAT)
  {
    assert Pow2(5) == 32;
    Pow2Add(5, 5);
    Pow2Add(10, 10);
    Pow2Add(20, 2);
    assert Pow2(22) == 0x40_0000;
  }
}
