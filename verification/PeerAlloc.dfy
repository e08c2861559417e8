/** Automatic peer addresses and the setup of a new peer. */
module PeerAlloc {
  import opened Options
  import opened Powers
  import opened PeerConfig

  lemma Pow2Values()
    ensures Pow2(32) == 0x1_0000_0000 && Pow2(128) == SPACE
  {
    Pow2Word();
    Pow2Double(32, 0x1_0000_0000);
    Pow2Double(64, 0x1_0000_0000_0000_0000);
  }

  // ---------------------------------------------------------------- the address space

  /** IPv4-mapped addresses print as dotted quads, which do not parse with a /128. */
  predicate Mapped(ip: nat) {
    0xffff_0000_0000 <= ip < 0x1_0000_0000_0000
  }

  /** What `net.ParseCIDR` makes of an address text followed by "/128". */
  function Single(ip: Address): Cidr {
    if Mapped(ip) then Malformed else V6(ip, 128)
  }

  function Network(addr: Address, bits: Ones): nat {
    Mask(addr, Size(bits))
  }

  /** `addToIP`. */
  function AddToIP(ip: nat, offset: nat): Result<Address> {
    if ip + offset < SPACE then Ok(ip + offset) else Err
  }

  lemma MaskFits(x: nat, s: nat, q: nat)
    requires s > 0 && x < q * s
    ensures x / s * s + s <= q * s
  {
    var k := x / s;
    if k >= q {
      MulMono(q, k, s);
    }
    MulMono(k + 1, q, s);
  }

  /** A network lies in the address space as a whole. */
  lemma NetworkFits(addr: Address, bits: Ones)
    ensures Network(addr, bits) + Size(bits) <= SPACE
  {
    Pow2Values();
    Pow2Add(bits, 128 - bits);
    MaskFits(addr, Size(bits), Pow2(bits));
  }

  // ---------------------------------------------------------------- nextPeerAllowedIP

  function UsedBy(cs: seq<Cidr>): set<nat> {
    set c | c in cs && c.V6? && c.bits == 128 :: c.addr
  }

  /** The host's own address and every address that a peer has to itself. */
  function Used(c: WgConfig): set<nat>
    requires c.address.V6?
  {
    {c.address.addr} + set p, a | p in c.peers && a in UsedBy(p.allowed) :: a
  }

  predicate Free(c: WgConfig, offset: nat)
    requires c.address.V6?
  {
    1 <= offset < Size(c.address.bits) && Network(c.address.addr, c.address.bits) + offset !in Used(c)
  }

  /** The first free address of the WireGuard network. */
  ghost predicate LeastFree(c: WgConfig, offset: nat)
    requires c.address.V6?
  {
    Free(c, offset) && forall o: nat :: o < offset ==> !Free(c, o)
  }

  predicate InUse(used: set<nat>, base: nat, offset: nat) {
    base + offset in used
  }

  /** So many different addresses are in use. */
  lemma {:induction false} RunOfUsed(base: nat, n: nat, used: set<nat>)
    requires forall o: nat :: 1 <= o <= n ==> InUse(used, base, o)
    ensures n <= |used|
    decreases n
  {
    if n > 0 {
      assert InUse(used, base, n);
      var rest := used - {base + n};
      forall o: nat | 1 <= o <= n - 1 ensures InUse(rest, base, o) {
        assert InUse(used, base, o);
      }
      RunOfUsed(base, n - 1, rest);
      assert |rest| == |used| - 1;
    }
  }

  method CollectUsed(c: WgConfig) returns (used: set<nat>)
    requires c.address.V6?
    ensures used == Used(c)
  {
    used := {c.address.addr};
    for i := 0 to |c.peers|
      invariant used == {c.address.addr} + set p, a | p in c.peers[..i] && a in UsedBy(p.allowed) :: a
    {
      assert c.peers[..i + 1] == c.peers[..i] + [c.peers[i]];
      var cs := c.peers[i].allowed;
      ghost var before := used;
      for j := 0 to |cs|
        invariant used == before + UsedBy(cs[..j])
      {
        assert cs[..j + 1] == cs[..j] + [cs[j]];
        if cs[j].V6? && cs[j].bits == 128 {
          used := used + {cs[j].addr};
        }
      }
      assert cs[..|cs|] == cs;
    }
    assert c.peers[..|c.peers|] == c.peers;
  }

  /** `nextPeerAllowedIP`: the text it returns is the address followed by "/128". */
  method NextPeerAllowedIP(c: WgConfig) returns (r: Result<Address>)
    ensures r.Ok? <==> c.address.V6? && c.address.bits <= 126 && exists o: nat :: Free(c, o)
    ensures r.Ok? ==>
      exists o: nat :: LeastFree(c, o) && r.value == Network(c.address.addr, c.address.bits) + o && o <= |Used(c)| + 1
  {
    if !c.address.V6? {
      return Err;
    }
    if c.address.bits > 126 {
      return Err;
    }
    var network := Network(c.address.addr, c.address.bits);
    NetworkFits(c.address.addr, c.address.bits);
    var used := CollectUsed(c);
    var size := Size(c.address.bits);
    var offset := 1;
    while offset < size
      invariant 1 <= offset <= size
      invariant forall o: nat :: o < offset ==> !Free(c, o)
      invariant forall o: nat :: 1 <= o < offset ==> InUse(used, network, o)
    {
      var candidate := AddToIP(network, offset);
      if candidate.Err? {
        return Err;
      }
      if candidate.value !in used {
        RunOfUsed(network, offset - 1, used);
        assert LeastFree(c, offset);
        return candidate;
      }
      offset := offset + 1;
    }
    return Err;
  }

  // ---------------------------------------------------------------- IPv4-mapped candidates

  lemma Quotient(x: nat, q: nat, r: nat, s: nat)
    requires s > 0 && x == q * s + r && r < s
    ensures x / s == q
  {
    var k := x / s;
    if k < q {
      MulMono(k + 1, q, s);
    } else if k > q {
      MulMono(q + 1, k, s);
    }
  }

  /** A small network is mapped as a whole or not at all. */
  lemma SmallNetwork(addr: Address, size: nat, m: nat, x: nat)
    requires size > 0 && size * m == 0x1_0000_0000 && Mask(addr, size) <= x < Mask(addr, size) + size
    ensures Mapped(addr) <==> Mapped(x)
  {
    var k := addr / size;
    Regroup(k, m, size);
    var q := k / m;
    Quotient(addr, q, addr - q * 0x1_0000_0000, 0x1_0000_0000);
    Quotient(x, q, x - q * 0x1_0000_0000, 0x1_0000_0000);
  }

  /** A block lies within the larger block it is part of. */
  lemma Regroup(k: nat, m: nat, size: nat)
    requires m > 0
    ensures k / m * (size * m) <= k * size && k * size + size <= k / m * (size * m) + size * m
  {
    var q, r := k / m, k % m;
    assert k * size == (q * m + r) * size == q * (size * m) + r * size;
    MulMono(r + 1, m, size);
  }

  /** In a larger network the mapped addresses are at least 2^32 away from the start. */
  lemma LargeNetwork(addr: Address, size: nat, m: nat, x: nat)
    requires size > 0 && size == 0x2_0000_0000 * m && Mask(addr, size) <= x && Mapped(x)
    ensures x - Mask(addr, size) >= 0x1_0000_0000
  {
    var k := addr / size;
    assert k * size == 0x2_0000_0000 * (k * m);
  }

  /** An automatic address is IPv4-mapped only when 2^32 - 1 addresses are in use already. */
  lemma MappedFarOut(c: WgConfig, o: nat)
    requires c.address.V6? && !Mapped(c.address.addr) && LeastFree(c, o)
    requires Mapped(Network(c.address.addr, c.address.bits) + o)
    ensures |Used(c)| >= 0xffff_ffff
  {
    var addr, bits := c.address.addr, c.address.bits;
    var n := Network(addr, bits);
    Pow2Values();
    if bits >= 96 {
      Pow2Add(128 - bits, bits - 96);
      SmallNetwork(addr, Size(bits), Pow2(bits - 96), n + o);
    } else {
      Pow2Add(33, 95 - bits);
      assert Pow2(33) == 2 * Pow2(32);
      LargeNetwork(addr, Size(bits), Pow2(95 - bits), n + o);
      forall k: nat | 1 <= k <= o - 1 ensures InUse(Used(c), n, k) {
        assert !Free(c, k);
      }
      RunOfUsed(n, o - 1, Used(c));
    }
  }

  // ---------------------------------------------------------------- NewPeerSetup

  predicate UsesNet(p: Peer, n: Net) {
    exists c :: c in p.allowed && !c.Malformed? && NetOf(c) == n
  }

  /** Some peer already has the name, the key text or the network. */
  predicate Clashes(ps: seq<Peer>, name: string, publicKey: string, n: Net) {
    exists p :: p in ps && (p.name == name || p.publicKey == publicKey || UsesNet(p, n))
  }

  /** The duplicate check of `NewPeerSetup`. */
  method FindClash(ps: seq<Peer>, name: string, publicKey: string, n: Net) returns (clash: bool)
    ensures clash <==> Clashes(ps, name, publicKey, n)
  {
    for i := 0 to |ps|
      invariant forall k :: 0 <= k < i ==> ps[k].name != name && ps[k].publicKey != publicKey && !UsesNet(ps[k], n)
    {
      if ps[i].name == name || ps[i].publicKey == publicKey {
        return true;
      }
      var cs := ps[i].allowed;
      for j := 0 to |cs|
        invariant forall k :: 0 <= k < j ==> cs[k].Malformed? || NetOf(cs[k]) != n
      {
        if !cs[j].Malformed? && NetOf(cs[j]) == n {
          assert UsesNet(ps[i], n);
          return true;
        }
      }
    }
    return false;
  }

  lemma SingleNet(ip: Address)
    ensures NetOf(V6(ip, 128)) == Net6(ip, 128)
  {
    assert Size(128) == 1;
  }

  lemma LeastUnique(c: WgConfig, o: nat, o': nat)
    requires c.address.V6? && LeastFree(c, o) && LeastFree(c, o')
    ensures o == o'
  {
  }

  /** An address that is free in the WireGuard network is no peer's network. */
  lemma FreeUnused(c: WgConfig, ip: Address, p: Peer)
    requires c.address.V6? && ip !in Used(c) && p in c.peers
    ensures !UsesNet(p, Net6(ip, 128))
  {
    forall a | a in p.allowed && !a.Malformed? ensures NetOf(a) != Net6(ip, 128) {
      if a.V6? && a.bits == 128 {
        SingleNet(a.addr);
        assert a.addr in UsedBy(p.allowed);
        assert a.addr in Used(c);
      }
    }
  }

  lemma NoClashAt(ps: seq<Peer>, name: string, publicKey: string, n: Net, i: nat, j: nat)
    requires !Clashes(ps, name, publicKey, n) && Slot(ps, i, j)
    ensures ps[i].name != name && ps[i].publicKey != publicKey && NetAt(ps, i, j) != n
  {
    assert ps[i] in ps && ps[i].allowed[j] in ps[i].allowed;
  }

  lemma AppendApart(ps: seq<Peer>, p: Peer)
    requires PeersOk(ps) && PeerOk(p) && |p.allowed| == 1 && p.allowed[0].V6?
    requires forall i: nat :: i < |ps| ==> Distinct(ps[i], p)
    requires forall i: nat, j: nat :: Slot(ps, i, j) ==> NetAt(ps, i, j) != NetOf(p.allowed[0])
    ensures PeersOk(ps + [p])
  {
    var qs := ps + [p];
    forall i: nat, j: nat | Slot(qs, i, j) && i < |ps| ensures Slot(ps, i, j) && NetAt(ps, i, j) == NetAt(qs, i, j) {
    }
  }

  /** The list stays valid with one more peer that clashes with none. */
  lemma AppendOk(ps: seq<Peer>, p: Peer)
    requires PeersOk(ps) && PeerOk(p) && |p.allowed| == 1 && p.allowed[0].V6?
    requires !Clashes(ps, p.name, p.publicKey, NetOf(p.allowed[0]))
    ensures PeersOk(ps + [p])
  {
    forall i: nat | i < |ps| ensures Distinct(ps[i], p) {
      assert PeerOk(ps[i]) && ps[i].allowed[0] in ps[i].allowed;
      NoClashAt(ps, p.name, p.publicKey, NetOf(p.allowed[0]), i, 0);
    }
    forall i: nat, j: nat | Slot(ps, i, j) ensures NetAt(ps, i, j) != NetOf(p.allowed[0]) {
      NoClashAt(ps, p.name, p.publicKey, NetOf(p.allowed[0]), i, j);
    }
    AppendApart(ps, p);
  }

  /** There is a free address whose text parses as an IPv6 address. */
  ghost predicate CanChoose(c: WgConfig) {
    c.address.V6? && c.address.bits <= 126
    && exists o: nat :: LeastFree(c, o) && !Mapped(Network(c.address.addr, c.address.bits) + o)
  }

  /** A subnet of at least four addresses that is not IPv4-mapped, and not absurdly full. */
  predicate Roomy(c: WgConfig) {
    c.address.V6? && c.address.bits <= 126 && !Mapped(c.address.addr) && |Used(c)| < 0xffff_ffff
  }

  lemma {:induction false} FirstFree(c: WgConfig, o: nat)
    requires c.address.V6? && Free(c, o)
    ensures exists p: nat :: LeastFree(c, p)
  {
    if p: nat :| p < o && Free(c, p) {
      FirstFree(c, p);
    } else {
      assert LeastFree(c, o);
    }
  }

  /** In such a subnet an address can be chosen exactly when one is free. */
  lemma FreeIsEnough(c: WgConfig)
    requires Roomy(c)
    ensures CanChoose(c) <==> exists o: nat :: Free(c, o)
  {
    if o: nat :| Free(c, o) {
      FirstFree(c, o);
      var p: nat :| LeastFree(c, p);
      if Mapped(Network(c.address.addr, c.address.bits) + p) {
        MappedFarOut(c, p);
      }
    }
  }

  /** The chosen address is the first free one. */
  ghost predicate Chosen(c: WgConfig, a: Cidr) {
    c.address.V6? && a.V6? && a.bits == 128
    && exists o: nat :: LeastFree(c, o) && a.addr == Network(c.address.addr, c.address.bits) + o
  }

  method ChooseAddress(c: WgConfig) returns (r: Result<Cidr>)
    ensures r.Ok? && r.value.V6? <==> CanChoose(c)
    ensures r.Ok? && r.value.V6? ==> Chosen(c, r.value)
  {
    var ip := NextPeerAllowedIP(c);
    if ip.Err? {
      return Err;
    }
    ghost var o: nat :| LeastFree(c, o) && ip.value == Network(c.address.addr, c.address.bits) + o;
    forall o': nat | LeastFree(c, o') ensures o' == o {
      LeastUnique(c, o, o');
    }
    return Ok(Single(ip.value));
  }

  /** A validated configuration, a fresh name and a fresh key. */
  ghost predicate Accepts(c: WgConfig, name: string, publicKey: string, key: Option<Key>, serverKey: bool) {
    && ConfigOk(c) && serverKey && name != "" && publicKey != "" && key.Some?
    && forall p :: p in c.peers ==> p.name != name && p.publicKey != publicKey
  }

  /** A chosen address never trips the duplicate check. */
  lemma ChosenUnclaimed(c: WgConfig, name: string, publicKey: string, a: Cidr)
    requires Chosen(c, a) && forall p :: p in c.peers ==> p.name != name && p.publicKey != publicKey
    ensures !Clashes(c.peers, name, publicKey, NetOf(a))
  {
    SingleNet(a.addr);
    forall p | p in c.peers ensures !UsesNet(p, Net6(a.addr, 128)) {
      FreeUnused(c, a.addr, p);
    }
  }

  /**
  `NewPeerSetup`. `key` is what `wgtypes.ParseKey` makes of `publicKey`, `allowed` is the
  parsed address or `None` when it is to be chosen, `serverKey` says that the server's key
  can be read.
  */
  method NewPeerSetup(c: WgConfig, name: string, publicKey: string, key: Option<Key>, allowed: Option<Cidr>, serverKey: bool)
    returns (r: Result<Peer>)
    ensures r.Ok? ==> r.value == Peer(name, publicKey, key, r.value.allowed) && |r.value.allowed| == 1
    ensures r.Ok? ==> if allowed.Some? then r.value.allowed[0] == allowed.value else Chosen(c, r.value.allowed[0])
    ensures r.Ok? && ConfigOk(c) ==> ConfigOk(c.(peers := c.peers + [r.value]))
    ensures Accepts(c, name, publicKey, key, serverKey) && allowed.None? ==> (r.Ok? <==> CanChoose(c))
    ensures Accepts(c, name, publicKey, key, serverKey) && allowed.None? && Roomy(c) ==> (r.Ok? <==> exists o: nat :: Free(c, o))
  {
    if Roomy(c) {
      FreeIsEnough(c);
    }
    if name == "" || publicKey == "" || key.None? {
      return Err;
    }
    var cidr := Malformed;
    if allowed.None? {
      var chosen := ChooseAddress(c);
      if chosen.Err? {
        return Err;
      }
      cidr := chosen.value;
    } else {
      cidr := allowed.value;
    }
    if !cidr.V6? || cidr.bits != 128 {
      return Err;
    }
    if allowed.None? && Accepts(c, name, publicKey, key, serverKey) {
      ChosenUnclaimed(c, name, publicKey, cidr);
    }
    var clash := FindClash(c.peers, name, publicKey, NetOf(cidr));
    if clash || !serverKey {
      return Err;
    }
    var peer := Peer(name, publicKey, key, [cidr]);
    if PeersOk(c.peers) {
      AppendOk(c.peers, peer);
    }
    return Ok(peer);
  }
}
