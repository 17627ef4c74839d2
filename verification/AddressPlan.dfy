/** How one IPv4 PodCIDR is carved into bridge, gateway, peer-gateway and workload addresses. */
module AddressPlan {
  import opened Text

  const TWO_TO_32 := 0x1_0000_0000

  /** A uint32, also an IPv4 address as its big-endian value. */
  type Word = x: int | 0 <= x < 0x1_0000_0000

  type Prefix = p: int | 0 <= p <= 32

  /** What net.ParseCIDR says of a text: an IPv4 address with its prefix, another family, or an error. */
  datatype Cidr = V4(address: Word, prefix: Prefix) | NotV4 | Malformed

  /** What net.ParseIP says of a text; an IPv4 address also has IPv6-mapped spellings. */
  datatype IPText = Unset | Dotted(value: Word) | Mapped(value: Word, spelling: string) | Other(text: string)

  function ParseV4(t: IPText): Option<Word> {
    match t
    case Dotted(v) => Some(v)
    case Mapped(v, _) => Some(v)
    case _ => None
  }

  // ---- uint32 arithmetic as the code writes it ---------------------------------------------

  function Pow2(n: nat): (r: nat)
    ensures r >= 1
  {
    if n == 0 then 1 else 2 * Pow2(n - 1)
  }

  function Wrap32(x: int): (r: Word)
    ensures 0 <= x < TWO_TO_32 ==> r == x
  {
    x % TWO_TO_32
  }

  /** uint32(1 << bits): the shifted-out bit is lost at 32. */
  function ShiftedOne(bits: nat): Word
    requires bits <= 32
  {
    Pow2Range(bits);
    if bits < 32 then Pow2(bits) else 0
  }

  function HostBits(c: Cidr): nat
    requires c.V4?
  {
    32 - c.prefix
  }

  /** An address with its low bits cleared, bit by bit. */
  function Masked(a: Word, bits: nat): (r: Word)
    ensures r <= a < r + Pow2(bits)
  {
    if bits == 0 then a else 2 * Masked(a / 2, bits - 1)
  }

  /** The network address. */
  function Base(c: Cidr): Word
    requires c.V4?
  {
    Masked(c.address, HostBits(c))
  }

  function BroadcastOffset(c: Cidr): Word
    requires c.V4?
  {
    Wrap32(ShiftedOne(HostBits(c)) - 1)
  }

  predicate Contains(c: Cidr, a: Word)
    requires c.V4?
  {
    Masked(a, HostBits(c)) == Base(c)
  }

  // ---- The functions of darwin_network.go --------------------------------------------------

  function BridgeAddressForCIDR(c: Cidr): Option<Word> {
    if !c.V4? then None
    else if Base(c) == TWO_TO_32 - 1 then None
    else Some(Wrap32(Base(c) + 1))
  }

  function PeerGatewayAddressForCIDR(c: Cidr, index: nat): Option<Word> {
    if !c.V4? || c.prefix > 30 then None
    else
      var broadcastOffset := BroadcastOffset(c);
      if index == 0 then Some(Wrap32(Base(c) + 2))
      else if Wrap32(index) >= Wrap32(broadcastOffset - 2) then None
      else Some(Wrap32(Base(c) + Wrap32(broadcastOffset - Wrap32(index))))
  }

  function WorkloadIPForOffset(c: Cidr, offset: Word): Option<Word> {
    if !c.V4? then None
    else
      var hostBits := HostBits(c);
      if hostBits < 2 || hostBits > 16 then None
      else if offset < 3 || offset >= BroadcastOffset(c) then None
      else Some(Wrap32(Base(c) + offset))
  }

  /** The Netmask half of routeSpec. */
  function Netmask(c: Cidr): Word
    requires c.V4?
  {
    Pow2Range(HostBits(c));
    Wrap32(TWO_TO_32 - Pow2(HostBits(c)))
  }

  /** validateWorkloadAddress(cidr, ip) */
  predicate ValidateWorkloadAddress(c: Cidr, ip: IPText) {
    match ParseV4(ip)
    case None => false
    case Some(value) =>
      c.V4? && Contains(c, value) && c.prefix <= 30 &&
      var offset := Wrap32(value - Base(c));
      3 <= offset < BroadcastOffset(c)
  }

  /** The --host-ip run argument: the gateway with its last octet decremented in place. */
  function HostIPArgument(gateway: Word): Word {
    gateway - gateway % 256 + (gateway % 256 - 1) % 256
  }

  // ---- The plan they share -----------------------------------------------------------------

  /** Addresses in the block. */
  ghost function Size(c: Cidr): nat
    requires c.V4?
  {
    Pow2(HostBits(c))
  }

  /** With n gateways, workloads get everything from the fourth address up to the gateways at the top. */
  ghost predicate Assignable(c: Cidr, n: nat, a: Word) {
    c.V4? && c.prefix <= 30 && Base(c) + 3 <= a < Base(c) + Size(c) - n
  }

  /** The number of assignable addresses when n gateways fit. */
  ghost function Capacity(c: Cidr, n: nat): int
    requires c.V4?
  {
    Size(c) - 4 - (n - 1)
  }

  // ---- Powers of two -----------------------------------------------------------------------

  lemma {:induction false} Pow2Monotone(a: nat, b: nat)
    requires a <= b
    ensures Pow2(a) <= Pow2(b)
    ensures a < b ==> 2 * Pow2(a) <= Pow2(b)
  {
    if a < b { Pow2Monotone(a, b - 1); }
  }

  lemma Pow2Nibble(n: nat)
    ensures Pow2(n + 4) == 16 * Pow2(n)
  {
    assert Pow2(n + 2) == 2 * Pow2(n + 1);
    assert Pow2(n + 4) == 2 * Pow2(n + 3);
  }

  lemma Pow2Values()
    ensures Pow2(2) == 4 && Pow2(16) == 0x1_0000 && Pow2(32) == TWO_TO_32
  {
    assert Pow2(0) == 1 && Pow2(2) == 4;
    hide Pow2;
    Pow2Nibble(0);
    Pow2Nibble(4);
    Pow2Nibble(8);
    Pow2Nibble(12);
    Pow2Nibble(16);
    Pow2Nibble(20);
    Pow2Nibble(24);
    Pow2Nibble(28);
  }

  lemma Pow2Range(bits: nat)
    requires bits <= 32
    ensures 1 <= Pow2(bits) <= TWO_TO_32
    ensures bits < 32 ==> Pow2(bits) < TWO_TO_32
    ensures bits >= 2 ==> Pow2(bits) >= 4
  {
    hide Pow2;
    Pow2Values();
    Pow2Monotone(bits, 32);
    if bits >= 2 { Pow2Monotone(2, bits); }
  }

  // ---- Clearing low bits -------------------------------------------------------------------

  /** A cleared address and its block stay below any power of two above the address. */
  lemma {:induction false} MaskedFits(a: Word, bits: nat, width: nat)
    requires bits <= width && a < Pow2(width)
    ensures Masked(a, bits) + Pow2(bits) <= Pow2(width)
  {
    if bits > 0 { MaskedFits(a / 2, bits - 1, width - 1); }
  }

  /** Two addresses clear to the same value exactly when one lies in the block of the other. */
  lemma {:induction false} MaskedSame(a: Word, b: Word, bits: nat)
    ensures Masked(a, bits) == Masked(b, bits) <==> Masked(b, bits) <= a < Masked(b, bits) + Pow2(bits)
  {
    if bits > 0 { MaskedSame(a / 2, b / 2, bits - 1); }
  }

  lemma MaskedStep(a: Word, bits: nat)
    requires bits > 0
    ensures Masked(a, bits) == 2 * Masked(a / 2, bits - 1)
  {
  }

  lemma MaskedByFour(a: Word, bits: nat)
    requires bits >= 2
    ensures Masked(a, bits) % 4 == 0
  {
    hide Masked, Pow2;
    MaskedStep(a, bits);
    MaskedStep(a / 2, bits - 1);
    FourTimes(Masked(a / 2 / 2, bits - 2));
  }

  lemma FourTimes(n: nat)
    ensures (2 * (2 * n)) % 4 == 0
  {
  }

  // ---- Netmasks ----------------------------------------------------------------------------

  /** Bit i of a word, counted from the lowest. */
  ghost predicate Bit(a: nat, i: nat) {
    if i == 0 then a % 2 == 1 else Bit(a / 2, i - 1)
  }

  /** Whether a route to this network under this mask takes an address: they agree wherever the mask has a bit. */
  ghost predicate Reaches(network: Word, mask: Word, a: Word) {
    forall i: nat :: i < 32 && Bit(mask, i) ==> (Bit(a, i) <==> Bit(network, i))
  }

  lemma {:induction false} BitsBelowPower(width: nat, low: nat, i: nat)
    requires low <= width && i < width
    ensures Pow2(width) - Pow2(low) >= 0
    ensures Bit(Pow2(width) - Pow2(low), i) <==> low <= i
  {
    Pow2Monotone(low, width);
    if i > 0 {
      BitsBelowPower(width - 1, if low > 0 then low - 1 else 0, i - 1);
      assert (Pow2(width) - Pow2(low)) / 2 == Pow2(width - 1) - if low > 0 then Pow2(low - 1) else 1;
    }
  }

  /** The mask of a CIDR has its upper bits set and no other. */
  lemma NetmaskBits(c: Cidr, i: nat)
    requires c.V4? && i < 32
    ensures Bit(Netmask(c), i) <==> HostBits(c) <= i
  {
    hide Bit, Pow2;
    Pow2Values();
    Pow2Range(HostBits(c));
    BitsBelowPower(32, HostBits(c), i);
  }

  ghost predicate SameBits(a: Word, b: Word, low: nat, width: nat) {
    forall i: nat :: low <= i < width ==> (Bit(a, i) <==> Bit(b, i))
  }

  lemma SameBitsHalved(a: Word, b: Word, low: nat, width: nat)
    requires width > 0
    ensures SameBits(a, b, low, width) <==>
            SameBits(a / 2, b / 2, if low > 0 then low - 1 else 0, width - 1) && (low > 0 || a % 2 == b % 2)
  {
    var x, y, l := a / 2, b / 2, if low > 0 then low - 1 else 0;
    if SameBits(a, b, low, width) {
      forall i: nat | l <= i < width - 1 ensures Bit(x, i) <==> Bit(y, i) {
        assert Bit(a, i + 1) <==> Bit(b, i + 1);
      }
      assert low == 0 ==> (Bit(a, 0) <==> Bit(b, 0));
    }
    if SameBits(x, y, l, width - 1) && (low > 0 || a % 2 == b % 2) {
      forall i: nat | low <= i < width ensures Bit(a, i) <==> Bit(b, i) {
        if i > 0 { assert Bit(x, i - 1) <==> Bit(y, i - 1); }
      }
    }
  }

  /** Words agree on their upper bits exactly if clearing the lower ones makes them equal. */
  lemma {:induction false} SameBitsMasked(a: Word, b: Word, low: nat, width: nat)
    requires low <= width && a < Pow2(width) && b < Pow2(width)
    ensures SameBits(a, b, low, width) <==> Masked(a, low) == Masked(b, low)
  {
    if width > 0 {
      hide SameBits, Bit;
      SameBitsHalved(a, b, low, width);
      SameBitsMasked(a / 2, b / 2, if low > 0 then low - 1 else 0, width - 1);
    }
  }

  /** A route to a CIDR takes exactly the addresses of its block. */
  lemma RouteReaches(c: Cidr, a: Word)
    requires c.V4?
    ensures Reaches(Base(c), Netmask(c), a) <==> Base(c) <= a < Base(c) + Size(c)
  {
    hide Bit, Pow2, Masked, Netmask;
    var low := HostBits(c);
    forall i: nat | i < 32 ensures Bit(Netmask(c), i) <==> low <= i { NetmaskBits(c, i); }
    Pow2Values();
    SameBitsMasked(a, Base(c), low, 32);
    MaskedSame(Base(c), c.address, low);
    MaskedSame(a, c.address, low);
    assert Reaches(Base(c), Netmask(c), a) <==> SameBits(a, Base(c), low, 32);
  }

  /** Two CIDRs have one mask exactly if their blocks have one size. */
  lemma NetmaskTells(c: Cidr, d: Cidr)
    requires c.V4? && d.V4?
    ensures Netmask(c) == Netmask(d) <==> Size(c) == Size(d)
  {
    hide Pow2;
    Pow2Range(HostBits(c));
    Pow2Range(HostBits(d));
  }

  /** The block lies inside the 32-bit space. */
  lemma BlockFits(c: Cidr)
    requires c.V4?
    ensures Base(c) + Size(c) <= TWO_TO_32
    ensures BroadcastOffset(c) == Size(c) - 1
    ensures c.prefix <= 30 ==> Size(c) >= 4
  {
    hide Pow2, Masked;
    var h := HostBits(c);
    Pow2Values();
    Pow2Range(h);
    MaskedFits(c.address, h, 32);
  }

  /** From /30 down the network address ends in two zero bits. */
  lemma BaseMultipleOfFour(c: Cidr)
    requires c.V4? && c.prefix <= 30
    ensures Base(c) % 4 == 0
  {
    hide Masked;
    MaskedByFour(c.address, HostBits(c));
  }

  /** A masked match is membership in the block. */
  lemma ContainsRange(c: Cidr, a: Word)
    requires c.V4?
    ensures Contains(c, a) <==> Base(c) <= a < Base(c) + Size(c)
  {
    hide Masked, Pow2;
    MaskedSame(a, c.address, HostBits(c));
  }

  // ---- What the functions mean -------------------------------------------------------------

  /** The bridge address is the one after the network address, and fails only where there is none. */
  lemma BridgeExact(c: Cidr)
    requires c.V4?
    ensures BridgeAddressForCIDR(c) == if Base(c) + 1 < TWO_TO_32 then Some(Base(c) + 1) else None
    ensures BridgeAddressForCIDR(c) == None <==> c == V4(TWO_TO_32 - 1, 32)
  {
    hide Masked, Pow2;
    MaskedSame(c.address, TWO_TO_32 - 1, HostBits(c));
    BlockFits(c);
    OneAddress(c);
  }

  /** Only a /32 has a block of one address, which is the address itself. */
  lemma OneAddress(c: Cidr)
    requires c.V4?
    ensures c.prefix == 32 ==> Size(c) == 1 && Base(c) == c.address
    ensures c.prefix < 32 ==> Size(c) >= 2
  {
    if c.prefix < 32 { assert Pow2(HostBits(c)) == 2 * Pow2(HostBits(c) - 1); }
  }

  /** No 32-bit operation of the plan loses a bit: every address is the plain sum. */
  lemma PlanExact(c: Cidr, index: nat)
    requires c.V4? && c.prefix <= 30 && index < TWO_TO_32
    ensures BridgeAddressForCIDR(c) == Some(Base(c) + 1)
    ensures PeerGatewayAddressForCIDR(c, index) ==
              if index == 0 then Some(Base(c) + 2)
              else if index < Size(c) - 3 then Some(Base(c) + Size(c) - 1 - index) else None
  {
    hide Base, Size;
    BlockFits(c);
  }

  /** Gateways are pairwise distinct and never the network, bridge or broadcast address. */
  lemma GatewaysDistinct(c: Cidr, i: nat, j: nat)
    requires i < TWO_TO_32 && j < TWO_TO_32
    requires PeerGatewayAddressForCIDR(c, i).Some? && PeerGatewayAddressForCIDR(c, j).Some?
    ensures var g := PeerGatewayAddressForCIDR(c, i).value;
            && g != Base(c) && Some(g) != BridgeAddressForCIDR(c) && g != Base(c) + Size(c) - 1
            && Base(c) + 2 <= g < Base(c) + Size(c) - 1
    ensures i != j ==> PeerGatewayAddressForCIDR(c, i) != PeerGatewayAddressForCIDR(c, j)
  {
    hide Base, Size, BridgeAddressForCIDR;
    BlockFits(c);
    PlanExact(c, i);
    PlanExact(c, j);
  }

  lemma ValidateExact(c: Cidr, ip: IPText)
    ensures ValidateWorkloadAddress(c, ip) <==> ParseV4(ip).Some? && Assignable(c, 1, ParseV4(ip).value)
  {
    hide Base, Size, Contains;
    if c.V4? && ParseV4(ip).Some? {
      BlockFits(c);
      ContainsRange(c, ParseV4(ip).value);
    }
  }

  /** The decrement never borrows: the host side Macker sees is the bridge address. */
  lemma HostIPIsBridge(c: Cidr)
    requires PeerGatewayAddressForCIDR(c, 0).Some?
    ensures Some(HostIPArgument(PeerGatewayAddressForCIDR(c, 0).value)) == BridgeAddressForCIDR(c)
  {
    hide Base, Size, BridgeAddressForCIDR;
    PlanExact(c, 0);
    BaseMultipleOfFour(c);
    LastOctet(Base(c));
  }

  lemma LastOctet(base: nat)
    requires base % 4 == 0
    ensures (base + 2) % 256 == base % 256 + 2
  {
    var q, r := base / 4 / 64, base / 4 % 64;
    assert base == 256 * q + 4 * r;
    OctetIs(base, q, 4 * r);
    OctetIs(base + 2, q, 4 * r + 2);
  }

  lemma OctetIs(n: nat, q: nat, r: nat)
    requires n == 256 * q + r && r < 256
    ensures n % 256 == r
  {
  }

  /** addWorkloadIP's broadcast: base + (1 << h) wraps to zero for the last block, and - 1 undoes it. */
  function AddedBroadcast(c: Cidr): Word
    requires c.V4?
  {
    Wrap32(Wrap32(Base(c) + ShiftedOne(HostBits(c))) - 1)
  }

  lemma AddedBroadcastExact(c: Cidr)
    requires c.V4?
    ensures AddedBroadcast(c) == Base(c) + Size(c) - 1
  {
    hide Base, Pow2;
    BlockFits(c);
    Pow2Range(HostBits(c));
  }

  /** The intermediate sum does wrap: 255.255.0.0/16 is such a block. */
  lemma AddedBroadcastWraps()
    ensures var c := V4(0xFFFF_FFFF, 16); Wrap32(Base(c) + ShiftedOne(HostBits(c))) == 0
  {
    hide Pow2, Masked;
    Pow2Values();
    MaskedFits(0xFFFF_FFFF, 16, 32);
  }

  // ---- Counting ----------------------------------------------------------------------------

  ghost function Dotteds(lo: nat, hi: nat): (s: set<IPText>)
    requires lo <= hi <= TWO_TO_32
  {
    set a: Word | lo <= a < hi :: Dotted(a)
  }

  lemma {:induction false} DottedsCount(lo: nat, hi: nat)
    requires lo <= hi <= TWO_TO_32
    ensures |Dotteds(lo, hi)| == hi - lo
  {
    if lo < hi {
      DottedsCount(lo, hi - 1);
      assert Dotteds(lo, hi) == Dotteds(lo, hi - 1) + {Dotted(hi - 1)};
    } else {
      assert Dotteds(lo, hi) == {};
    }
  }

  lemma SubsetCount<T>(s: set<T>, t: set<T>)
    requires s <= t
    ensures |s| <= |t|
  {
    assert t == s + (t - s);
  }

  /** Fewer addresses in use than the plan holds leaves one free. */
  lemma FreeByCounting(c: Cidr, n: nat, used: set<IPText>)
    requires c.V4? && c.prefix <= 30 && |used| < Capacity(c, n)
    ensures exists a: Word :: Assignable(c, n, a) && Dotted(a) !in used
  {
    hide Base, Size;
    BlockFits(c);
    var lo, hi := Base(c) + 3, Base(c) + Size(c) - n;
    DottedsCount(lo, hi);
    if Dotteds(lo, hi) <= used {
      SubsetCount(Dotteds(lo, hi), used);
    } else {
      var t :| t in Dotteds(lo, hi) && t !in used;
      assert Assignable(c, n, t.value);
    }
  }
}
