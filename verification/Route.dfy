/** Address ranges in CIDR notation, and the routes that match on them. */
module Route {
  import opened Types

  type Bits32 = b: nat | b < 0x1_0000_0000

  /** All IPv4 addresses come before all IPv6 addresses. */
  datatype IpAddr = V4(bits: Bits32) | V6(value: nat)

  predicate AtMost(a: IpAddr, b: IpAddr) {
    match (a, b)
    case (V4(x), V4(y)) => x <= y
    case (V4(_), V6(_)) => true
    case (V6(_), V4(_)) => false
    case (V6(x), V6(y)) => x <= y
  }

  datatype IpRange = IpRange(start: IpAddr, endInclusive: IpAddr)

  predicate Contains(r: IpRange, a: IpAddr) {
    AtMost(r.start, a) && AtMost(a, r.endInclusive)
  }

  /** An IPv4 address and a network prefix; parsing admits no other prefix lengths. */
  datatype Ipv4Cidr = Ipv4Cidr(address: Bits32, prefix: nat)

  predicate ValidCidr(c: Ipv4Cidr) {
    1 <= c.prefix <= 32
  }

  function Pow2(n: nat): (r: nat)
    ensures r > 0
  {
    if n == 0 then 1 else 2 * Pow2(n - 1)
  }

  /** How many addresses agree on the first `prefix` bits. */
  function BlockSize(prefix: nat): (r: nat)
    requires prefix <= 32
    ensures r > 0
  {
    Pow2(32 - prefix)
  }

  /** Clears the host bits, as `bits & mask` does. */
  function ClearHostBits(bits: Bits32, prefix: nat): int
    requires 1 <= prefix <= 32
  {
    bits - bits % BlockSize(prefix)
  }

  /** Sets the host bits, as `bits | !mask` does. */
  function SetHostBits(bits: Bits32, prefix: nat): int
    requires 1 <= prefix <= 32
  {
    bits - bits % BlockSize(prefix) + (BlockSize(prefix) - 1)
  }

  function FromCidr(c: Ipv4Cidr): IpRange
    requires ValidCidr(c)
  {
    HostBitsFit(c.address, c.prefix);
    IpRange(V4(ClearHostBits(c.address, c.prefix)), V4(SetHostBits(c.address, c.prefix)))
  }

  /** The bits of the address that the prefix covers. */
  function NetworkPart(bits: Bits32, prefix: nat): int
    requires 1 <= prefix <= 32
  {
    bits / BlockSize(prefix)
  }

  /** The addresses of a network, as section 3.1 of RFC 4632 has it: those that agree on the prefix bits. */
  predicate SharesPrefix(c: Ipv4Cidr, a: IpAddr)
    requires ValidCidr(c)
  {
    a.V4? && NetworkPart(a.bits, c.prefix) == NetworkPart(c.address, c.prefix)
  }

  datatype Route = Route(destination: IpRange, next: IpAddr, cost: nat)

  function NextHopTowards(r: Route, a: IpAddr): Option<IpAddr> {
    if Contains(r.destination, a) then Some(r.next) else None
  }

  // ----- Arithmetic of blocks -----

  lemma {:induction false} Pow2Adds(a: nat, b: nat)
    ensures Pow2(a + b) == Pow2(a) * Pow2(b)
  {
    if a > 0 {
      Pow2Adds(a - 1, b);
      MulAssociates(2, Pow2(a - 1), Pow2(b));
    }
  }

  lemma Pow2Of32()
    ensures Pow2(32) == 0x1_0000_0000
  {
    Pow2Adds(4, 4);
    Pow2Adds(8, 8);
    Pow2Adds(16, 16);
  }

  lemma MulAssociates(a: nat, b: nat, c: nat)
    ensures a * (b * c) == (a * b) * c
  {
  }

  lemma MulGrows(d: nat, x: nat, y: nat)
    requires x <= y
    ensures d * x <= d * y
  {
  }

  lemma DivIsUnique(x: nat, d: nat, q: nat, r: nat)
    requires r < d && x == d * q + r
    ensures x / d == q
  {
    var q1 := x / d;
    assert x == d * q1 + x % d;
    if q1 < q {
      MulGrows(d, q1 + 1, q);
    } else if q < q1 {
      MulGrows(d, q + 1, q1);
    }
  }

  lemma Regroup(d: nat, m: nat, k: nat, s: nat, r: nat)
    ensures d * (m * k + s) + r == (d * m) * k + (d * s + r)
  {
    MulAssociates(d, m, k);
  }

  lemma RemainderFits(d: nat, m: nat, s: nat, r: nat)
    requires r < d && s < m
    ensures d * s + r < d * m
  {
    MulGrows(d, s + 1, m);
  }

  lemma DivOfDiv(x: nat, d: nat, m: nat)
    requires d > 0 && m > 0
    ensures d * m > 0 && x / (d * m) == x / d / m
  {
    ghost var q, r := x / d, x % d;
    ghost var k, s := q / m, q % m;
    assert x == d * (m * k + s) + r;
    Regroup(d, m, k, s, r);
    RemainderFits(d, m, s, r);
    DivIsUnique(x, d * m, k, d * s + r);
  }

  lemma BlockFits(bits: nat, d: nat, blocks: nat)
    requires d > 0 && bits < d * blocks
    ensures 0 <= bits - bits % d && bits - bits % d + d <= d * blocks
  {
    ghost var q := bits / d;
    assert bits == d * q + bits % d;
    if blocks <= q {
      MulGrows(d, blocks, q);
    }
    MulGrows(d, q + 1, blocks);
  }

  lemma HostBitsFit(bits: Bits32, prefix: nat)
    requires 1 <= prefix <= 32
    ensures 0 <= ClearHostBits(bits, prefix) <= SetHostBits(bits, prefix) < 0x1_0000_0000
  {
    Pow2Adds(32 - prefix, prefix);
    Pow2Of32();
    BlockFits(bits, BlockSize(prefix), Pow2(prefix));
  }

  lemma SameBlock(d: nat, x: nat, y: nat)
    requires d > 0
    ensures x - x % d <= y <= x - x % d + (d - 1) <==> y / d == x / d
  {
    var q := x / d;
    assert x - x % d == d * q;
    if d * q <= y <= d * q + (d - 1) {
      DivIsUnique(y, d, q, y - d * q);
    }
  }

  // ----- What matching means -----

  /** The range built from CIDR notation contains exactly the addresses that share the prefix. */
  lemma CidrRangeIsPrefix(c: Ipv4Cidr, a: IpAddr)
    requires ValidCidr(c)
    ensures Contains(FromCidr(c), a) <==> SharesPrefix(c, a)
  {
    if a.V4? {
      SameBlock(BlockSize(c.prefix), c.address, a.bits);
    }
  }

  lemma LongerPrefixRefines(p: nat, q: nat, x: Bits32, y: Bits32)
    requires 1 <= p <= q <= 32
    requires NetworkPart(x, q) == NetworkPart(y, q)
    ensures NetworkPart(x, p) == NetworkPart(y, p)
  {
    Pow2Adds(32 - q, q - p);
    DivOfDiv(x, BlockSize(q), Pow2(q - p));
    DivOfDiv(y, BlockSize(q), Pow2(q - p));
  }

  /** Two CIDR ranges never overlap in part: the one with the longer prefix is inside the other, or apart from it. */
  lemma CidrRangesNestOrAreDisjoint(c: Ipv4Cidr, d: Ipv4Cidr)
    requires ValidCidr(c) && ValidCidr(d) && c.prefix <= d.prefix
    ensures (forall a :: Contains(FromCidr(d), a) ==> Contains(FromCidr(c), a))
         || (forall a :: !(Contains(FromCidr(d), a) && Contains(FromCidr(c), a)))
  {
    forall a
      ensures Contains(FromCidr(d), a) ==>
        (Contains(FromCidr(c), a) <==> NetworkPart(d.address, c.prefix) == NetworkPart(c.address, c.prefix))
    {
      CidrRangeIsPrefix(c, a);
      CidrRangeIsPrefix(d, a);
      if SharesPrefix(d, a) {
        LongerPrefixRefines(c.prefix, d.prefix, a.bits, d.address);
      }
    }
  }

  // ----- The same in bits -----

  function Halved(x: nat, times: nat): nat {
    if times == 0 then x else Halved(x, times - 1) / 2
  }

  /** Bit `i` of an address, counted from the most significant one. */
  function BitOf(x: Bits32, i: nat): nat
    requires i < 32
  {
    Halved(x, 31 - i) % 2
  }

  lemma {:induction false} HalvedIsDiv(x: nat, times: nat)
    ensures Halved(x, times) == x / Pow2(times)
  {
    if times > 0 {
      HalvedIsDiv(x, times - 1);
      DivOfDiv(x, Pow2(times - 1), 2);
    }
  }

  /** The two addresses have the same first `prefix` bits. */
  predicate SameBits(x: Bits32, y: Bits32, prefix: nat)
    requires prefix <= 32
  {
    forall i :: 0 <= i < prefix ==> BitOf(x, i) == BitOf(y, i)
  }

  lemma OneMoreBit(x: Bits32, y: Bits32, prefix: nat)
    requires prefix < 32
    ensures SameBits(x, y, prefix + 1) <==> SameBits(x, y, prefix) && BitOf(x, prefix) == BitOf(y, prefix)
  {
    hide BitOf;
  }

  lemma {:induction false} TopBitsAgree(x: Bits32, y: Bits32, prefix: nat)
    requires prefix <= 32
    ensures Halved(x, 32 - prefix) == Halved(y, 32 - prefix) <==> SameBits(x, y, prefix)
  {
    if prefix == 0 {
      HalvedIsDiv(x, 32);
      HalvedIsDiv(y, 32);
      Pow2Of32();
      DivIsUnique(x, Pow2(32), 0, x);
      DivIsUnique(y, Pow2(32), 0, y);
    } else {
      hide SameBits;
      TopBitsAgree(x, y, prefix - 1);
      OneMoreBit(x, y, prefix - 1);
      HalvesAgree(Halved(x, 32 - prefix), Halved(y, 32 - prefix));
      assert Halved(x, 33 - prefix) == Halved(x, 32 - prefix) / 2 && Halved(y, 33 - prefix) == Halved(y, 32 - prefix) / 2;
    }
  }

  lemma HalvesAgree(a: nat, b: nat)
    ensures a == b <==> a / 2 == b / 2 && a % 2 == b % 2
  {
  }

  /** The range of a CIDR block holds exactly the IPv4 addresses that have the same first `prefix` bits. */
  lemma CidrRangeIsBits(c: Ipv4Cidr, a: IpAddr)
    requires ValidCidr(c)
    ensures Contains(FromCidr(c), a) <==> a.V4? && SameBits(a.bits, c.address, c.prefix)
  {
    CidrRangeIsPrefix(c, a);
    if a.V4? {
      HalvedIsDiv(a.bits, 32 - c.prefix);
      HalvedIsDiv(c.address, 32 - c.prefix);
      TopBitsAgree(a.bits, c.address, c.prefix);
    }
  }
}
