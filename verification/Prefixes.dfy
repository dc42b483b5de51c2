/** Address prefixes, and the private ranges both the client and the service treat as local. */
module Prefixes {
  import opened Address
  import opened Adapter

  datatype Prefix = Prefix(ipv6: bool, base: nat, length: nat)

  function Pow2(n: nat): (p: nat)
    ensures p > 0
  {
    if n == 0 then 1 else 2 * Pow2(n - 1)
  }

  function Width(ipv6: bool): nat {
    if ipv6 then 128 else 32
  }

  function Value(address: Address): nat {
    if address.V4? then address.v4 else address.v6
  }

  /** The address starts with the bits of the prefix. */
  predicate Covers(prefix: Prefix, address: Address) {
    && prefix.ipv6 == address.V6?
    && prefix.length <= Width(prefix.ipv6)
    && Value(address) / Pow2(Width(prefix.ipv6) - prefix.length)
       == prefix.base / Pow2(Width(prefix.ipv6) - prefix.length)
  }

  function HostPrefix(address: Address): Prefix {
    Prefix(address.V6?, Value(address), Width(address.V6?))
  }

  /** 2^112: what follows the first two octets of an IPv6 address. */
  const AFTER_LEAD := 0x1_0000_0000_0000_0000_0000_0000_0000

  const LOOPBACK_V4 := Prefix(false, 127 * 0x100_0000, 8)
  const LOOPBACK_V6 := Prefix(true, 1, 128)
  const CLASS_A := Prefix(false, 10 * 0x100_0000, 8)
  const CLASS_B := Prefix(false, 172 * 0x100_0000 + 16 * 0x1_0000, 12)
  const CLASS_C := Prefix(false, 192 * 0x100_0000 + 168 * 0x1_0000, 16)
  const LINK_LOCAL_V4 := Prefix(false, 169 * 0x100_0000 + 254 * 0x1_0000, 16)
  const SHARED := Prefix(false, 100 * 0x100_0000 + 64 * 0x1_0000, 10)
  const UNIQUE_LOCAL := Prefix(true, 0xfc00 * AFTER_LEAD, 7)
  const LINK_LOCAL_V6 := Prefix(true, 0xfe80 * AFTER_LEAD, 10)

  /** PRIVATE_CIDRS: the texts in the client's rule, with the prefixes they denote. */
  const PRIVATE_CIDRS: seq<(string, Prefix)> := [
    ("10.0.0.0/8", CLASS_A),
    ("172.16.0.0/12", CLASS_B),
    ("192.168.0.0/16", CLASS_C),
    ("127.0.0.0/8", LOOPBACK_V4),
    ("169.254.0.0/16", LINK_LOCAL_V4),
    ("100.64.0.0/10", SHARED),
    ("::1/128", LOOPBACK_V6),
    ("fc00::/7", UNIQUE_LOCAL),
    ("fe80::/10", LINK_LOCAL_V6)]

  /** The private ranges but for the loopback ones. */
  predicate IsLocal(address: Address) {
    || Covers(CLASS_A, address) || Covers(CLASS_B, address) || Covers(CLASS_C, address)
    || Covers(LINK_LOCAL_V4, address) || Covers(SHARED, address)
    || Covers(UNIQUE_LOCAL, address) || Covers(LINK_LOCAL_V6, address)
  }

  predicate IsPrivate(address: Address) {
    exists i | 0 <= i < |PRIVATE_CIDRS| :: Covers(PRIVATE_CIDRS[i].1, address)
  }

  predicate IsLoopback(address: Address) {
    Covers(LOOPBACK_V4, address) || Covers(LOOPBACK_V6, address)
  }

  lemma HostPrefixCovers(address: Address, other: Address)
    ensures Covers(HostPrefix(address), other) <==> address == other
  {
    assert Pow2(0) == 1;
  }

  lemma {:induction false} Pow2Sum(a: nat, b: nat)
    ensures Pow2(a + b) == Pow2(a) * Pow2(b)
  {
    if a != 0 {
      Pow2Sum(a - 1, b);
      assert Pow2(a + b) == 2 * (Pow2(a - 1) * Pow2(b));
    }
  }

  lemma SmallPowers()
    ensures Pow2(4) == 0x10 && Pow2(6) == 0x40 && Pow2(8) == 0x100 && Pow2(9) == 0x200
    ensures Pow2(16) == 0x1_0000 && Pow2(20) == 0x10_0000 && Pow2(22) == 0x40_0000 && Pow2(24) == 0x100_0000
            && Pow2(31) == 0x8000_0000
  {
    assert Pow2(4) == 0x10;
    Pow2Sum(4, 2);
    Pow2Sum(4, 4);
    Pow2Sum(8, 1);
    Pow2Sum(8, 8);
    Pow2Sum(16, 4);
    Pow2Sum(16, 6);
    Pow2Sum(16, 8);
    Pow2Sum(22, 9);
  }

  lemma LargePowers()
    ensures Pow2(112) == AFTER_LEAD && Pow2(121) == 0x200 * AFTER_LEAD && Pow2(118) == 0x40 * AFTER_LEAD
            && Pow2(127) == 0x8000 * AFTER_LEAD
  {
    SmallPowers();
    hide Pow2;
    Pow2Sum(16, 16);
    Pow2Sum(32, 32);
    Pow2Sum(64, 32);
    Pow2Sum(96, 16);
    Pow2Sum(112, 9);
    Pow2Sum(112, 6);
    Pow2Sum(121, 6);
  }

  /** Everything below is about the upper half of an IPv4 address. */
  lemma UpperHalf(n: Bits32, upper: nat)
    requires upper == n / 0x1_0000
    ensures Octet(n, 0) == upper / 0x100 && Octet(n, 1) == upper % 0x100
    ensures n / 0x10_0000 == upper / 0x10
    ensures n / 0x40_0000 == upper / 0x40
    ensures n / 0x100_0000 == upper / 0x100
  {}

  /** An IPv4 prefix of at most 16 bits is a test on the upper half. */
  lemma UpperBlock(prefix: Prefix, n: Bits32, size: nat)
    requires !prefix.ipv6 && prefix.length <= 16 && Pow2(32 - prefix.length) == 0x1_0000 * size && size > 0
    ensures Covers(prefix, V4(n)) <==> n / (0x1_0000 * size) == prefix.base / (0x1_0000 * size)
  {}

  lemma V4Ranges(n: Bits32, upper: nat)
    requires upper == n / 0x1_0000
    ensures Covers(CLASS_A, V4(n)) <==> upper / 0x100 == 10
    ensures Covers(CLASS_B, V4(n)) <==> upper / 0x10 == 0xac1
    ensures Covers(CLASS_C, V4(n)) <==> upper == 0xc0a8
    ensures Covers(LINK_LOCAL_V4, V4(n)) <==> upper == 0xa9fe
    ensures Covers(SHARED, V4(n)) <==> upper / 0x40 == 0x191
  {
    UpperHalf(n, upper);
    hide Pow2, Covers;
    SmallPowers();
    UpperBlock(CLASS_A, n, 0x100);
    UpperBlock(CLASS_B, n, 0x10);
    UpperBlock(CLASS_C, n, 1);
    UpperBlock(LINK_LOCAL_V4, n, 1);
    UpperBlock(SHARED, n, 0x40);
  }

  lemma V6Ranges(n: Bits128, lead: nat)
    requires lead == n / AFTER_LEAD
    ensures Covers(UNIQUE_LOCAL, V6(n)) <==> lead / 0x200 == 0x7e
    ensures Covers(LINK_LOCAL_V6, V6(n)) <==> lead / 0x40 == 0x3fa
  {
    hide Pow2;
    LargePowers();
    assert n / (0x200 * AFTER_LEAD) == lead / 0x200;
    assert n / (0x40 * AFTER_LEAD) == lead / 0x40;
  }

  /** The octet tests of the service are exactly the client's private ranges without the loopback ones. */
  lemma BlackholeIsLocal(address: Address)
    ensures NeedsHostBlackhole(address) <==> IsLocal(address)
  {
    hide Covers, Octet;
    match address
    case V4(n) =>
      UpperHalf(n, n / 0x1_0000);
      V4Ranges(n, n / 0x1_0000);
      OtherFamily(address);
    case V6(n) =>
      V6Ranges(n, n / AFTER_LEAD);
      OtherFamily(address);
  }

  lemma OtherFamily(address: Address)
    ensures forall prefix: Prefix :: prefix.ipv6 != address.V6? ==> !Covers(prefix, address)
  {}

  lemma PrivateRanges(address: Address)
    ensures IsPrivate(address) <==> IsLocal(address) || IsLoopback(address)
  {
    hide Covers;
    assert PRIVATE_CIDRS[0].1 == CLASS_A && PRIVATE_CIDRS[1].1 == CLASS_B && PRIVATE_CIDRS[2].1 == CLASS_C
           && PRIVATE_CIDRS[3].1 == LOOPBACK_V4 && PRIVATE_CIDRS[4].1 == LINK_LOCAL_V4 && PRIVATE_CIDRS[5].1 == SHARED
           && PRIVATE_CIDRS[6].1 == LOOPBACK_V6 && PRIVATE_CIDRS[7].1 == UNIQUE_LOCAL
              && PRIVATE_CIDRS[8].1 == LINK_LOCAL_V6;
  }

  /** The addresses that get a host route are the client's private ranges without loopback. */
  lemma BlackholeIsPrivateButLoopback(address: Address)
    ensures NeedsHostBlackhole(address) <==> IsPrivate(address) && !IsLoopback(address)
  {
    hide Covers;
    BlackholeIsLocal(address);
    PrivateRanges(address);
    LoopbackIsNotLocal(address);
  }

  lemma LoopbackIsNotLocal(address: Address)
    ensures IsLoopback(address) ==> !IsLocal(address)
  {
    hide Covers, Pow2;
    OtherFamily(address);
    match address
    case V4(n) =>
      V4Ranges(n, n / 0x1_0000);
      SmallPowers();
      UpperHalf(n, n / 0x1_0000);
      UpperBlock(LOOPBACK_V4, n, 0x100);
    case V6(n) =>
      V6Ranges(n, n / AFTER_LEAD);
      HostPrefixCovers(V6(1), address);
  }
}
