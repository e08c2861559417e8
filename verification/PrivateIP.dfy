/**
Private addresses of VMs: IPv6 /127 pairs (RFC 6164, section 6), the IPv4 /31 pairs
derived from them (RFC 3021, section 2.1), and the default address of the DNS listener.
*/
module PrivateIP {
  import opened Options
  import opened Powers
  import opened PeerConfig
  import opened PeerAlloc

  const SPACE4: nat := 0x1_0000_0000

  type Address4 = x: nat | x < SPACE4

  // A parsed IPv6 or IPv4 subnet text: the address as written, and the prefix length.
  datatype Subnet6 = Subnet6(ip: Address, bits: Ones)
  datatype Subnet4 = Subnet4(ip: Address4, ones: nat)

  function Base(n: Subnet6): nat {
    Network(n.ip, n.bits)
  }

  predicate Contains(n: Subnet6, ip: nat) {
    Base(n) <= ip < Base(n) + Size(n.bits)
  }

  function Size4(n: Subnet4): (s: nat)
    ensures s > 0
  {
    Pow2(if n.ones <= 32 then 32 - n.ones else 0)
  }

  predicate Contains4(n: Subnet4, ip: int) {
    Mask(n.ip, Size4(n)) <= ip < Mask(n.ip, Size4(n)) + Size4(n)
  }

  // ---------------------------------------------------------------- nextPrivateIP

  /** A guest's offset: odd, above the address reserved for DNS, and inside the subnet. */
  predicate Guest(n: Subnet6, o: nat) {
    3 <= o < Size(n.bits) && o % 2 == 1
  }

  predicate Taken(n: Subnet6, used: set<nat>, o: nat) {
    Base(n) + o in used
  }

  /** The least free guest address. */
  ghost predicate Least(n: Subnet6, used: set<nat>, o: nat) {
    Guest(n, o) && !Taken(n, used, o) && forall k: nat :: Guest(n, k) && k < o ==> Taken(n, used, k)
  }

  ghost predicate Exhausted(n: Subnet6, used: set<nat>) {
    forall k: nat :: Guest(n, k) ==> Taken(n, used, k)
  }

  lemma Candidate(n: Subnet6, o: nat)
    ensures var ip := AddToIP(Base(n), o); ip.Ok? && Contains(n, ip.value) <==> o < Size(n.bits)
  {
    NetworkFits(n.ip, n.bits);
  }

  method NextPrivateIP(n: Subnet6, used: set<nat>) returns (r: Result<Address>)
    ensures r.Ok? ==> exists o: nat :: Least(n, used, o) && r.value == Base(n) + o
    ensures r.Err? <==> Exhausted(n, used)
  {
    var offset := 3;
    while true
      invariant offset % 2 == 1 && 3 <= offset
      invariant forall k: nat :: Guest(n, k) && k < offset ==> Taken(n, used, k)
      decreases Size(n.bits) - offset
    {
      Candidate(n, offset);
      var ip := AddToIP(Base(n), offset);
      if ip.Err? {
        return Err;
      }
      if !Contains(n, ip.value) {
        return Err;
      }
      if ip.value !in used {
        assert Least(n, used, offset);
        return ip;
      }
      assert Taken(n, used, offset);
      offset := offset + 2;
    }
  }

  // ---------------------------------------------------------------- creates and deletes

  /** The addresses of the VMs in the store; a VM may have none. */
  class Addresses {
    const subnet: Subnet6
    var ips: map<string, Option<Address>>

    ghost predicate Valid()
      reads this
    {
      && (forall u :: u in ips && ips[u].Some? ==>
            exists o: nat :: Guest(subnet, o) && ips[u].value == Base(subnet) + o)
      && (forall u, v :: u in ips && v in ips && ips[u].Some? && ips[u] == ips[v] ==> u == v)
    }

    constructor (n: Subnet6)
      ensures Valid() && subnet == n && ips == map[]
    {
      subnet, ips := n, map[];
    }

    function Used(): set<nat>
      reads this
    {
      set u | u in ips && ips[u].Some? :: ips[u].value
    }

    /** A VM is created with the least free address, or not at all when there is none. */
    method Create(u: string) returns (r: Result<Address>)
      requires Valid() && u !in ips
      modifies this
      ensures Valid()
      ensures r.Err? <==> Exhausted(subnet, old(Used()))
      ensures r.Err? ==> ips == old(ips)
      ensures r.Ok? ==> ips == old(ips)[u := Some(r.value)]
      ensures r.Ok? ==> exists o: nat :: Least(subnet, old(Used()), o) && r.value == Base(subnet) + o
    {
      r := NextPrivateIP(subnet, Used());
      if r.Ok? {
        assert r.value !in Used();
        ips := ips[u := Some(r.value)];
      }
    }

    method Delete(u: string)
      requires Valid()
      modifies this
      ensures Valid() && ips == old(ips) - {u}
    {
      ips := ips - {u};
    }
  }

  // ---------------------------------------------------------------- the pairs

  /** The host's and the guest's end of a VM's link. */
  datatype Pair = Pair(host: int, guest: int)

  predicate Apart(p: Pair, q: Pair) {
    p.host != q.host && p.host != q.guest && p.guest != q.host && p.guest != q.guest
  }

  function Pair6(n: Subnet6, o: nat): Pair {
    Pair(Base(n) + o - 1, Base(n) + o)
  }

  /** Pairs at odd distances from one base never meet. */
  lemma OddApart(b: int, o: int, p: int)
    requires o % 2 == 1 && p % 2 == 1 && o != p
    ensures Apart(Pair(b + o - 1, b + o), Pair(b + p - 1, b + p))
  {
  }

  lemma EvenProduct(q: nat, size: nat, h: nat, m: nat)
    requires size == 2 * h && m == q * size
    ensures m % 2 == 0
  {
    assert m == 2 * (q * h);
  }

  lemma HostParity(b: int, o: int)
    requires o % 2 == 1
    ensures (b + o - 1) % 2 == 0 <==> b % 2 == 0
  {
  }

  /** Two guests' pairs share no address; each is a /127 network of its own inside the subnet. */
  lemma PairsApart(n: Subnet6, o: nat, p: nat)
    requires Guest(n, o) && Guest(n, p) && o != p
    ensures Apart(Pair6(n, o), Pair6(n, p))
    ensures Pair6(n, o).host % 2 == 0 && Contains(n, Pair6(n, o).host) && Contains(n, Pair6(n, o).guest)
  {
    var b := Base(n);
    OddApart(b, o, p);
    assert n.bits <= 127 by {
      assert Size(128) == 1;
    }
    EvenProduct(n.ip / Size(n.bits), Size(n.bits), Pow2(127 - n.bits), b);
    HostParity(b, o);
  }

  /** `privateIPv4Pair`: the guest's IPv6 offset, carried over to the IPv4 subnet as written. */
  function Pair4(n: Subnet6, n4: Subnet4, guest: Address): Result<Pair> {
    var o := guest - Base(n);
    if Mapped(guest) || !Contains(n, guest) then Err
    else if o <= 0 || o % 2 == 0 then Err
    else if o > 0x7fff_ffff_ffff_ffff || n4.ip + o >= SPACE4 then Err
    else if !Contains4(n4, n4.ip + o - 1) || !Contains4(n4, n4.ip + o) then Err
    else Ok(Pair(n4.ip + o - 1, n4.ip + o))
  }

  /** Different guests get IPv4 pairs that share no address, inside the IPv4 subnet. */
  lemma Pairs4Apart(n: Subnet6, n4: Subnet4, g: Address, h: Address)
    requires g != h && Pair4(n, n4, g).Ok? && Pair4(n, n4, h).Ok?
    ensures Apart(Pair4(n, n4, g).value, Pair4(n, n4, h).value)
    ensures Contains4(n4, Pair4(n, n4, g).value.host) && Contains4(n4, Pair4(n, n4, g).value.guest)
    ensures Pair4(n, n4, g).value.guest - n4.ip == g - Base(n)
  {
    OddApart(n4.ip, g - Base(n), h - Base(n));
  }

  /** The IPv4 pair is a /31 network exactly when the address of the subnet text is even. */
  lemma Pair4Aligned(n: Subnet6, n4: Subnet4, g: Address)
    requires Pair4(n, n4, g).Ok?
    ensures Pair4(n, n4, g).value.host % 2 == 0 <==> n4.ip % 2 == 0
  {
    HostParity(n4.ip, g - Base(n));
  }

  /** A canonical IPv4 subnet with room for a pair has an even address. */
  lemma CanonicalEven(n4: Subnet4)
    requires n4.ones <= 31 && n4.ip == Mask(n4.ip, Size4(n4))
    ensures n4.ip % 2 == 0
  {
    EvenProduct(n4.ip / Size4(n4), Size4(n4), Pow2(31 - n4.ones), n4.ip);
  }

  /** A single IPv4 address has no room for a pair. */
  lemma SmallSubnetNoPair(n: Subnet6, n4: Subnet4, o: nat)
    requires n4.ones >= 32 && Guest(n, o) && Base(n) + o < SPACE
    ensures Pair4(n, n4, Base(n) + o).Err?
  {
    assert Size4(n4) == 1;
  }
}
