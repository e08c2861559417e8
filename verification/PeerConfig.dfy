/**
The WireGuard section of the configuration and its validation.

Texts that the program parses with library functions are represented by the parse
result: `key` is what `wgtypes.ParseKey` makes of `publicKey`, and a `Cidr` is what
`net.ParseCIDR` makes of an address text. A network stands for its canonical text.
*/
module PeerConfig {
  import opened Options
  import opened Powers

  type Key = string

  const SPACE: nat := 0x1_0000_0000_0000_0000_0000_0000_0000_0000

  type Address = x: nat | x < SPACE
  type Ones = n: nat | n <= 128

  // `V4` is every address whose `To4()` is not nil.
  datatype Cidr = Malformed | V4(ip: nat, ones: nat) | V6(addr: Address, bits: Ones)

  datatype Net = Net4(base: nat, ones: nat) | Net6(base6: nat, bits: Ones)

  datatype Peer = Peer(name: string, publicKey: string, key: Option<Key>, allowed: seq<Cidr>)

  datatype WgConfig = WgConfig(
    interface: string, listenPort: int, address: Cidr, endpoint: string, privateKeyFile: string, peers: seq<Peer>)

  /** The number of addresses in an IPv6 network. */
  function Size(bits: Ones): (n: nat)
    ensures n > 0
  {
    Pow2(128 - bits)
  }

  /** Clears the host part. */
  function Mask(x: nat, size: nat): (base: nat)
    requires size > 0
    ensures base <= x < base + size
  {
    x / size * size
  }

  /** The network of a parsed CIDR, `ipNet`. */
  function NetOf(c: Cidr): Net
    requires !c.Malformed?
  {
    match c
    case V4(ip, ones) => Net4(Mask(ip, Pow2(if ones <= 32 then 32 - ones else 0)), ones)
    case V6(addr, bits) => Net6(Mask(addr, Size(bits)), bits)
  }

  function Nets(cs: seq<Cidr>): (ns: seq<Net>)
    requires forall c :: c in cs ==> !c.Malformed?
    ensures |ns| == |cs| && forall i :: 0 <= i < |cs| ==> ns[i] == NetOf(cs[i])
  {
    seq(|cs|, i requires 0 <= i < |cs| => NetOf(cs[i]))
  }

  // ---------------------------------------------------------------- Validate

  predicate PeerOk(p: Peer) {
    p.name != "" && p.publicKey != "" && p.allowed != [] && forall c :: c in p.allowed ==> c.V6?
  }

  predicate Distinct(p: Peer, q: Peer) {
    p.name != q.name && p.publicKey != q.publicKey
  }

  /** The `j`th allowed network of the `i`th peer. */
  function NetAt(ps: seq<Peer>, i: nat, j: nat): Net
    requires i < |ps| && j < |ps[i].allowed| && ps[i].allowed[j].V6?
  {
    NetOf(ps[i].allowed[j])
  }

  predicate Slot(ps: seq<Peer>, i: nat, j: nat) {
    i < |ps| && j < |ps[i].allowed| && ps[i].allowed[j].V6?
  }

  /** Every peer is complete, no two share a name or a key text, and no network is listed twice. */
  ghost predicate PeersOk(ps: seq<Peer>) {
    && (forall i :: 0 <= i < |ps| ==> PeerOk(ps[i]))
    && (forall i, k :: 0 <= i < k < |ps| ==> Distinct(ps[i], ps[k]))
    && (forall i, j, k, l :: Slot(ps, i, j) && Slot(ps, k, l) && NetAt(ps, i, j) == NetAt(ps, k, l) ==> i == k && j == l)
  }

  ghost predicate ConfigOk(c: WgConfig) {
    c.interface != "" && 0 < c.listenPort <= 65535 && c.privateKeyFile != "" && c.address.V6? && PeersOk(c.peers)
  }

  /** The CIDRs are IPv6, and their networks are new and all different. */
  ghost predicate AllowedOk(cs: seq<Cidr>, seen: map<Net, nat>) {
    && (forall c :: c in cs ==> c.V6?)
    && (forall j :: 0 <= j < |cs| && cs[j].V6? ==> NetOf(cs[j]) !in seen)
    && (forall j, l :: 0 <= j < l < |cs| && cs[j].V6? && cs[l].V6? ==> NetOf(cs[j]) != NetOf(cs[l]))
  }

  predicate Lists(cs: seq<Cidr>, n: Net) {
    exists j :: 0 <= j < |cs| && cs[j].V6? && NetOf(cs[j]) == n
  }

  lemma ListsOneMore(cs: seq<Cidr>, j: nat, n: Net)
    requires j < |cs|
    ensures Lists(cs[..j + 1], n) <==> Lists(cs[..j], n) || (cs[j].V6? && NetOf(cs[j]) == n)
  {
    var p, q := cs[..j], cs[..j + 1];
    assert q[j] == cs[j];
    assert forall k :: 0 <= k < j ==> q[k] == p[k];
  }

  lemma AllowedOneMore(cs: seq<Cidr>, j: nat, seen: map<Net, nat>)
    requires j < |cs| && AllowedOk(cs[..j], seen)
    ensures AllowedOk(cs[..j + 1], seen) <==>
      cs[j].V6? && NetOf(cs[j]) !in seen && !Lists(cs[..j], NetOf(cs[j]))
  {
    var p, q := cs[..j], cs[..j + 1];
    assert q[j] == cs[j] && q[j] in q;
    assert forall k :: 0 <= k < j ==> q[k] == p[k] && p[k] in p;
  }

  lemma AllowedPrefix(cs: seq<Cidr>, j: nat, seen: map<Net, nat>)
    requires j <= |cs| && AllowedOk(cs, seen)
    ensures AllowedOk(cs[..j], seen)
  {
  }

  method ValidateAllowed(cs: seq<Cidr>, seen: map<Net, nat>, i: nat) returns (ok: bool, seen': map<Net, nat>)
    ensures ok <==> AllowedOk(cs, seen)
    ensures ok ==> forall n :: n in seen' <==> n in seen || Lists(cs, n)
  {
    seen' := seen;
    for j := 0 to |cs|
      invariant AllowedOk(cs[..j], seen)
      invariant forall n :: n in seen' <==> n in seen || Lists(cs[..j], n)
    {
      AllowedOneMore(cs, j, seen);
      if !cs[j].V6? || NetOf(cs[j]) in seen' {
        if AllowedOk(cs, seen) {
          AllowedPrefix(cs, j + 1, seen);
        }
        return false, seen';
      }
      seen' := seen'[NetOf(cs[j]) := i];
      forall n ensures Lists(cs[..j + 1], n) <==> Lists(cs[..j], n) || n == NetOf(cs[j]) {
        ListsOneMore(cs, j, n);
      }
    }
    assert cs[..|cs|] == cs;
    return true, seen';
  }

  predicate Named(ps: seq<Peer>, n: string) {
    exists i :: 0 <= i < |ps| && ps[i].name == n
  }

  predicate Keyed(ps: seq<Peer>, k: string) {
    exists i :: 0 <= i < |ps| && ps[i].publicKey == k
  }

  predicate Listed(ps: seq<Peer>, n: Net) {
    exists i :: 0 <= i < |ps| && Lists(ps[i].allowed, n)
  }

  lemma OneMore(ps: seq<Peer>, p: Peer, s: string, n: Net)
    ensures Named(ps + [p], s) <==> Named(ps, s) || p.name == s
    ensures Keyed(ps + [p], s) <==> Keyed(ps, s) || p.publicKey == s
    ensures Listed(ps + [p], n) <==> Listed(ps, n) || Lists(p.allowed, n)
  {
    var qs := ps + [p];
    assert qs[|ps|] == p;
    assert forall i :: 0 <= i < |ps| ==> qs[i] == ps[i];
  }

  ghost predicate Seen(ps: seq<Peer>, names: map<string, nat>, keys: map<string, nat>, nets: map<Net, nat>) {
    && (forall n :: n in names <==> Named(ps, n))
    && (forall k :: k in keys <==> Keyed(ps, k))
    && (forall n :: n in nets <==> Listed(ps, n))
  }

  /** One more peer is acceptable after the ones already seen. */
  ghost predicate Fits(p: Peer, names: map<string, nat>, keys: map<string, nat>, nets: map<Net, nat>) {
    p.name != "" && p.name !in names && p.publicKey != "" && p.publicKey !in keys && p.allowed != [] && AllowedOk(p.allowed, nets)
  }

  lemma PeersExtend(ps: seq<Peer>, p: Peer, names: map<string, nat>, keys: map<string, nat>, nets: map<Net, nat>)
    requires PeersOk(ps) && Seen(ps, names, keys, nets)
    ensures PeersOk(ps + [p]) <==> Fits(p, names, keys, nets)
  {
    var qs := ps + [p];
    if PeersOk(qs) {
      PeersExtendOnly(ps, p, names, keys, nets);
    } else if Fits(p, names, keys, nets) {
      PeersExtendIf(ps, p, names, keys, nets);
    }
  }

  lemma PeersExtendOnly(ps: seq<Peer>, p: Peer, names: map<string, nat>, keys: map<string, nat>, nets: map<Net, nat>)
    requires PeersOk(ps + [p]) && Seen(ps, names, keys, nets)
    ensures Fits(p, names, keys, nets)
  {
    var qs := ps + [p];
    assert qs[|ps|] == p && PeerOk(p);
    forall i | 0 <= i < |ps| ensures Distinct(ps[i], p) {
      assert Distinct(qs[i], qs[|ps|]);
    }
    forall j, l | 0 <= j < l < |p.allowed| && p.allowed[j].V6? && p.allowed[l].V6?
      ensures NetOf(p.allowed[j]) != NetOf(p.allowed[l])
    {
      assert Slot(qs, |ps|, j) && Slot(qs, |ps|, l);
      assert NetAt(qs, |ps|, j) != NetAt(qs, |ps|, l);
    }
    forall j | 0 <= j < |p.allowed| && p.allowed[j].V6? ensures !Listed(ps, NetOf(p.allowed[j])) {
      forall i: nat, k: nat | Slot(ps, i, k) ensures NetAt(ps, i, k) != NetOf(p.allowed[j]) {
        assert Slot(qs, i, k) && Slot(qs, |ps|, j) && NetAt(qs, i, k) == NetAt(ps, i, k);
      }
      assert forall i: nat, k: nat :: Slot(ps, i, k) ==> NetOf(ps[i].allowed[k]) == NetAt(ps, i, k);
    }
  }

  lemma PeersExtendIf(ps: seq<Peer>, p: Peer, names: map<string, nat>, keys: map<string, nat>, nets: map<Net, nat>)
    requires PeersOk(ps) && Seen(ps, names, keys, nets) && Fits(p, names, keys, nets)
    ensures PeersOk(ps + [p])
  {
    var qs := ps + [p];
    forall i: nat, j: nat, l: nat | Slot(ps, i, j) && Slot(qs, |ps|, l) ensures NetAt(ps, i, j) != NetAt(qs, |ps|, l) {
      assert Lists(ps[i].allowed, NetAt(ps, i, j)) && Listed(ps, NetAt(ps, i, j));
    }
    forall i: nat, j: nat | Slot(qs, i, j) && i < |ps| ensures Slot(ps, i, j) && NetAt(ps, i, j) == NetAt(qs, i, j) {
    }
  }

  lemma PrefixOk(ps: seq<Peer>, n: nat)
    requires n <= |ps| && PeersOk(ps)
    ensures PeersOk(ps[..n])
  {
    var qs := ps[..n];
    forall i: nat, j: nat, k: nat, l: nat | Slot(qs, i, j) && Slot(qs, k, l) && NetAt(qs, i, j) == NetAt(qs, k, l) ensures i == k && j == l {
      assert Slot(ps, i, j) && Slot(ps, k, l) && NetAt(ps, i, j) == NetAt(ps, k, l);
    }
  }

  lemma PrefixBad(ps: seq<Peer>, n: nat)
    requires n <= |ps| && !PeersOk(ps[..n])
    ensures !PeersOk(ps)
  {
    if PeersOk(ps) {
      PrefixOk(ps, n);
    }
  }

  method ValidatePeer(p: Peer, i: nat, names: map<string, nat>, keys: map<string, nat>, nets: map<Net, nat>)
    returns (ok: bool, nets': map<Net, nat>)
    ensures ok <==> Fits(p, names, keys, nets)
    ensures ok ==> forall n :: n in nets' <==> n in nets || Lists(p.allowed, n)
  {
    nets' := nets;
    if p.name == "" || p.name in names || p.publicKey == "" || p.publicKey in keys || |p.allowed| == 0 {
      return false, nets';
    }
    ok, nets' := ValidateAllowed(p.allowed, nets, i);
  }

  lemma SeenExtend(ps: seq<Peer>, p: Peer, i: nat, names: map<string, nat>, keys: map<string, nat>,
                   nets: map<Net, nat>, nets': map<Net, nat>)
    requires Seen(ps, names, keys, nets) && forall n :: n in nets' <==> n in nets || Lists(p.allowed, n)
    ensures Seen(ps + [p], names[p.name := i], keys[p.publicKey := i], nets')
  {
    forall s ensures Named(ps + [p], s) <==> Named(ps, s) || p.name == s {
      OneMore(ps, p, s, Net4(0, 0));
    }
    forall s ensures Keyed(ps + [p], s) <==> Keyed(ps, s) || p.publicKey == s {
      OneMore(ps, p, s, Net4(0, 0));
    }
    forall n ensures Listed(ps + [p], n) <==> Listed(ps, n) || Lists(p.allowed, n) {
      OneMore(ps, p, "", n);
    }
  }

  /** `WireGuardConfig.Validate`. */
  method Validate(c: WgConfig) returns (ok: bool)
    ensures ok <==> ConfigOk(c)
  {
    if c.interface == "" || c.listenPort <= 0 || c.listenPort > 65535 || c.privateKeyFile == "" || !c.address.V6? {
      return false;
    }
    var names: map<string, nat>, keys: map<string, nat>, nets: map<Net, nat> := map[], map[], map[];
    for i := 0 to |c.peers|
      invariant PeersOk(c.peers[..i]) && Seen(c.peers[..i], names, keys, nets)
    {
      var p := c.peers[i];
      assert c.peers[..i + 1] == c.peers[..i] + [p];
      PeersExtend(c.peers[..i], p, names, keys, nets);
      var fits, nets' := ValidatePeer(p, i, names, keys, nets);
      if !fits {
        PrefixBad(c.peers, i + 1);
        return false;
      }
      SeenExtend(c.peers[..i], p, i, names, keys, nets, nets');
      names, keys, nets := names[p.name := i], keys[p.publicKey := i], nets';
    }
    assert c.peers[..|c.peers|] == c.peers;
    return true;
  }
}
