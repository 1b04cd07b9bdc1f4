/**
 * IPv4 addresses as the simulator stores them, the per-octet network
 * arithmetic of `getNetworkFromIP` / `getNetworkAddress` / `isIPInNetwork`
 * and the private-range test `isExternalIP`.
 *
 * An address field of a device holds either nothing (`undefined` or the empty
 * string, both falsy in JavaScript), the marker `'N/A'`, or a dotted quad.
 */
module Addressing {
  import opened Options

  newtype Octet = x: int | 0 <= x < 256

  datatype Addr = Unset | NA | Quad(a: Octet, b: Octet, c: Octet, d: Octet)

  /** The address `'0.0.0.0'`, used by the simulator as "no gateway". */
  const Zero: Addr := Quad(0, 0, 0, 0)
  /** The default mask `'255.255.255.0'`. */
  const Mask24: Addr := Quad(255, 255, 255, 0)

  /** JavaScript truthiness of an address string: only the empty value is falsy. */
  predicate Truthy(ip: Addr) { ip != Unset }

  /** The guard `ip && ip !== 'N/A'`. */
  predicate Present(ip: Addr) { ip.Quad? }

  /** The guard `ip && ip !== 'N/A' && ip !== '0.0.0.0'`. */
  predicate Configured(ip: Addr) { ip.Quad? && ip != Zero }

  /** The expression `mask || '255.255.255.0'`. */
  function MaskOr24(mask: Addr): (r: Addr)
    ensures r != Unset
    ensures mask != Unset ==> r == mask
  {
    if mask == Unset then Mask24 else mask
  }

  /** Bitwise AND of two naturals, bit by bit from the least significant one. */
  function BitAnd(x: nat, y: nat): (r: nat)
    ensures r <= x && r <= y
    decreases x
  {
    if x == 0 || y == 0 then 0
    else 2 * BitAnd(x / 2, y / 2) + (if x % 2 == 1 && y % 2 == 1 then 1 else 0)
  }

  /** JavaScript's `&` on two octets. */
  function And(x: Octet, y: Octet): Octet
  {
    BitAnd(x as nat, y as nat) as Octet
  }

  lemma {:induction false} BitAndAbsorb(x: nat, y: nat)
    ensures BitAnd(BitAnd(x, y), y) == BitAnd(x, y)
    decreases x
  {
    if x != 0 && y != 0 {
      var r := BitAnd(x / 2, y / 2);
      BitAndAbsorb(x / 2, y / 2);
      var bit := if x % 2 == 1 && y % 2 == 1 then 1 else 0;
      var z := 2 * r + bit;
      if z != 0 {
        assert z / 2 == r && z % 2 == bit;
      }
    }
  }

  lemma {:induction false} BitAndOnes(x: nat, k: nat, ones: nat)
    requires x < Pow2(k) && ones == Pow2(k) - 1
    ensures BitAnd(x, ones) == x
    decreases k
  {
    if x != 0 {
      assert k > 0;
      BitAndOnes(x / 2, k - 1, Pow2(k - 1) - 1);
      assert ones / 2 == Pow2(k - 1) - 1 && ones % 2 == 1;
    }
  }

  function Pow2(k: nat): (r: nat)
    ensures r >= 1
  {
    if k == 0 then 1 else 2 * Pow2(k - 1)
  }

  lemma AndWithFull(x: Octet)
    ensures And(x, 255) == x
  {
    assert Pow2(8) == 256 by {
      assert Pow2(4) == 16;
    }
    BitAndOnes(x as nat, 8, 255);
  }

  /**
   * `getNetworkFromIP(ip, mask)`: `'0.0.0.0'` when the address is empty or
   * `'N/A'`; otherwise the octet-wise AND of address and mask.  A mask of
   * `'N/A'` splits into a single `NaN`, and `x & NaN` as well as
   * `x & undefined` are 0, so every octet is 0.  An undefined mask makes
   * `split` throw and the catch branch keeps the first three octets; mask
   * fields are only ever written with non-empty text, so `Unset` stands
   * for an undefined mask.
   */
  function NetworkFromIP(ip: Addr, mask: Addr): (r: Addr)
    ensures r.Quad?
  {
    match ip
    case Quad(a, b, c, d) =>
      (match mask
       case Quad(m1, m2, m3, m4) => Quad(And(a, m1), And(b, m2), And(c, m3), And(d, m4))
       case NA => Zero
       case Unset => Quad(a, b, c, 0))
    case _ => Zero
  }

  /**
   * `getNetworkAddress(ip, mask)`: `null` for an empty or `'N/A'` address,
   * otherwise the network.  The source throws on an undefined mask; the
   * model answers `null` there.
   */
  function NetworkAddress(ip: Addr, mask: Addr): (r: Option<Addr>)
    ensures r.Some? <==> ip.Quad? && mask != Unset
    ensures r.Some? ==> r.value == NetworkFromIP(ip, mask)
  {
    if !ip.Quad? || mask == Unset then None else Some(NetworkFromIP(ip, mask))
  }

  /** `isIPInNetwork(ip, network, mask)`. */
  predicate IsIPInNetwork(ip: Addr, network: Addr, mask: Addr)
  {
    NetworkAddress(ip, mask) == Some(network)
  }

  /**
   * `areInSameNetwork(ip1, ip2, mask1, mask2)` lives in a helper module that
   * is not part of this model; it is taken to compare the two networks as
   * `getNetworkFromIP` computes them.
   */
  predicate AreInSameNetwork(ip1: Addr, ip2: Addr, mask1: Addr, mask2: Addr)
  {
    NetworkFromIP(ip1, mask1) == NetworkFromIP(ip2, mask2)
  }

  /** A network address belongs to its own network: ANDing again changes nothing. */
  lemma NetworkIsInItsNetwork(ip: Addr, mask: Addr)
    requires ip.Quad? && mask != Unset
    ensures IsIPInNetwork(NetworkFromIP(ip, mask), NetworkFromIP(ip, mask), mask)
  {
    if mask.Quad? {
      BitAndAbsorb(ip.a as nat, mask.a as nat);
      BitAndAbsorb(ip.b as nat, mask.b as nat);
      BitAndAbsorb(ip.c as nat, mask.c as nat);
      BitAndAbsorb(ip.d as nat, mask.d as nat);
    }
  }

  /** Under the mask 255.255.255.0 the network keeps the first three octets. */
  lemma NetworkUnderMask24(ip: Addr)
    requires ip.Quad?
    ensures NetworkFromIP(ip, Mask24) == Quad(ip.a, ip.b, ip.c, 0)
  {
    AndWithFull(ip.a);
    AndWithFull(ip.b);
    AndWithFull(ip.c);
  }

  /** Two addresses share a /24 network exactly when their first three octets agree. */
  lemma SameNetworkUnderMask24(ip1: Addr, ip2: Addr)
    requires ip1.Quad? && ip2.Quad?
    ensures AreInSameNetwork(ip1, ip2, Mask24, Mask24)
            <==> ip1.a == ip2.a && ip1.b == ip2.b && ip1.c == ip2.c
  {
    NetworkUnderMask24(ip1);
    NetworkUnderMask24(ip2);
  }

  /**
   * `isExternalIP(ip)`: false for an empty or `'N/A'` address, otherwise
   * true unless the text starts with one of the private prefixes
   * `10.`, `172.16.`-`172.31.`, `192.168.`, `127.`, `169.254.`, `203.0.113.`.
   */
  predicate IsExternalIP(ip: Addr)
  {
    match ip
    case Quad(a, b, c, _) =>
      !(a == 10 || (a == 172 && 16 <= b <= 31) || (a == 192 && b == 168)
        || a == 127 || (a == 169 && b == 254) || (a == 203 && b == 0 && c == 113))
    case _ => false
  }

  // An independent reference for the private ranges: inclusive intervals of
  // 32-bit address values.

  function Value(q: Addr): nat
    requires q.Quad?
  {
    ((q.a as nat * 256 + q.b as nat) * 256 + q.c as nat) * 256 + q.d as nat
  }

  datatype Block = Block(first: Addr, last: Addr)

  const PrivateBlocks: seq<Block> := [
    Block(Quad(10, 0, 0, 0), Quad(10, 255, 255, 255)),
    Block(Quad(172, 16, 0, 0), Quad(172, 31, 255, 255)),
    Block(Quad(192, 168, 0, 0), Quad(192, 168, 255, 255)),
    Block(Quad(127, 0, 0, 0), Quad(127, 255, 255, 255)),
    Block(Quad(169, 254, 0, 0), Quad(169, 254, 255, 255)),
    Block(Quad(203, 0, 113, 0), Quad(203, 0, 113, 255))
  ]

  predicate InBlock(ip: Addr, blk: Block)
    requires ip.Quad?
  {
    blk.first.Quad? && blk.last.Quad? && Value(blk.first) <= Value(ip) <= Value(blk.last)
  }

  /**
   * `isExternalIP` is false for empty and `'N/A'`, and for a dotted quad it
   * holds exactly when the address lies in none of 10.0.0.0/8,
   * 172.16.0.0/12, 192.168.0.0/16, 127.0.0.0/8, 169.254.0.0/16 and
   * 203.0.113.0/24.  In particular `'0.0.0.0'` counts as external.
   */
  lemma IsExternalIPMatchesBlocks(ip: Addr)
    ensures !ip.Quad? ==> !IsExternalIP(ip)
    ensures ip.Quad? ==>
      (IsExternalIP(ip) <==> forall i :: 0 <= i < |PrivateBlocks| ==> !InBlock(ip, PrivateBlocks[i]))
    ensures IsExternalIP(Zero)
  {
    if ip.Quad? {
      InSlash8(ip, 10);
      InSlash12(ip, 172, 16);
      InSlash16(ip, 192, 168);
      InSlash8(ip, 127);
      InSlash16(ip, 169, 254);
      InSlash24(ip, 203, 0, 113);
      assert InBlock(ip, PrivateBlocks[0]) <==> ip.a == 10;
      assert InBlock(ip, PrivateBlocks[1]) <==> ip.a == 172 && 16 <= ip.b <= 31;
      assert InBlock(ip, PrivateBlocks[2]) <==> ip.a == 192 && ip.b == 168;
      assert InBlock(ip, PrivateBlocks[3]) <==> ip.a == 127;
      assert InBlock(ip, PrivateBlocks[4]) <==> ip.a == 169 && ip.b == 254;
      assert InBlock(ip, PrivateBlocks[5]) <==> ip.a == 203 && ip.b == 0 && ip.c == 113;
    }
  }

  lemma InSlash8(ip: Addr, a: Octet)
    requires ip.Quad?
    ensures InBlock(ip, Block(Quad(a, 0, 0, 0), Quad(a, 255, 255, 255))) <==> ip.a == a
  {
  }

  lemma InSlash12(ip: Addr, a: Octet, b: Octet)
    requires ip.Quad? && b as int + 15 <= 255
    ensures InBlock(ip, Block(Quad(a, b, 0, 0), Quad(a, (b as int + 15) as Octet, 255, 255))) <==> ip.a == a && b <= ip.b <= (b as int + 15) as Octet
  {
  }

  lemma InSlash16(ip: Addr, a: Octet, b: Octet)
    requires ip.Quad?
    ensures InBlock(ip, Block(Quad(a, b, 0, 0), Quad(a, b, 255, 255))) <==> ip.a == a && ip.b == b
  {
  }

  lemma InSlash24(ip: Addr, a: Octet, b: Octet, c: Octet)
    requires ip.Quad?
    ensures InBlock(ip, Block(Quad(a, b, c, 0), Quad(a, b, c, 255))) <==> ip.a == a && ip.b == b && ip.c == c
  {
  }
}
