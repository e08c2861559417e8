/** Applying a reloaded peer list to the running device, once and over a whole run of the watcher. */
module PeerReload {
  import opened Options
  import opened PeerConfig
  import opened PeerDiff

  predicate HasKey(ps: seq<Peer>, k: Key) {
    exists i :: 0 <= i < |ps| && ps[i].key == Some(k)
  }

  /** Some peer with this key lists this network. */
  predicate Allows(ps: seq<Peer>, k: Key, n: Net) {
    exists i :: 0 <= i < |ps| && ps[i].key == Some(k) && Parses(ps[i]) && n in Nets(ps[i].allowed)
  }

  /** The device has exactly the listed peers, each with exactly its networks. */
  ghost predicate DeviceHas(d: Device, ps: seq<Peer>) {
    && Convertible(ps)
    && (forall k :: k in d.peers <==> HasKey(ps, k))
    && (forall n, k :: n in d.routes && d.routes[n] == k <==> Allows(ps, k, n))
  }

  /** The list leaves nothing about the device open. */
  lemma DeviceUnique(c: Device, d: Device, ps: seq<Peer>)
    requires DeviceHas(c, ps) && DeviceHas(d, ps)
    ensures c == d
  {
    assert c.peers == d.peers;
    forall n ensures n in c.routes <==> n in d.routes {
      assert n in c.routes ==> Allows(ps, c.routes[n], n);
      assert n in d.routes ==> Allows(ps, d.routes[n], n);
    }
    forall n | n in c.routes ensures c.routes[n] == d.routes[n] {
      assert Allows(ps, c.routes[n], n);
    }
    assert c.routes == d.routes;
  }

  lemma IndexAt(m: map<Key, Runtime>, ps: seq<Peer>, k: Key) returns (i: nat)
    requires Convertible(ps) && Indexes(m, ps) && k in m
    ensures i < |ps| && ps[i].key == Some(k) && m[k].nets == Nets(ps[i].allowed)
  {
    i :| 0 <= i < |ps| && ps[i].key == Some(k);
    assert m[ps[i].key.value] == RuntimeOf(ps[i]);
  }

  lemma IndexKey(m: map<Key, Runtime>, ps: seq<Peer>, k: Key)
    requires Convertible(ps) && Indexes(m, ps)
    ensures k in m <==> HasKey(ps, k)
  {
  }

  lemma IndexNets(m: map<Key, Runtime>, ps: seq<Peer>, k: Key, n: Net)
    requires Convertible(ps) && Indexes(m, ps)
    ensures k in m && n in m[k].nets <==> Allows(ps, k, n)
  {
    if k in m {
      var i := IndexAt(m, ps, k);
      assert n in m[k].nets ==> Allows(ps, k, n);
    }
    if Allows(ps, k, n) {
      var i :| 0 <= i < |ps| && ps[i].key == Some(k) && n in Nets(ps[i].allowed);
      assert m[ps[i].key.value] == RuntimeOf(ps[i]);
    }
  }

  lemma HoldsToHas(d: Device, m: map<Key, Runtime>, ps: seq<Peer>)
    requires Convertible(ps) && Indexes(m, ps) && Holds(d, m)
    ensures DeviceHas(d, ps)
  {
    forall k ensures k in d.peers <==> HasKey(ps, k) {
      IndexKey(m, ps, k);
    }
    forall n, k ensures n in d.routes && d.routes[n] == k <==> Allows(ps, k, n) {
      IndexNets(m, ps, k, n);
    }
  }

  lemma HasToHolds(d: Device, m: map<Key, Runtime>, ps: seq<Peer>)
    requires Convertible(ps) && Indexes(m, ps) && DeviceHas(d, ps)
    ensures Holds(d, m)
  {
    forall k ensures k in d.peers <==> k in m {
      IndexKey(m, ps, k);
    }
    assert d.peers == m.Keys;
    forall n | n in d.routes ensures d.routes[n] in m && n in m[d.routes[n]].nets {
      assert Allows(ps, d.routes[n], n);
      IndexNets(m, ps, d.routes[n], n);
    }
    forall k, n | k in m && n in m[k].nets ensures n in d.routes && d.routes[n] == k {
      IndexNets(m, ps, k, n);
    }
  }

  /** The device in terms of the index, and in terms of the list. */
  lemma HoldsHas(d: Device, m: map<Key, Runtime>, ps: seq<Peer>)
    requires Convertible(ps) && Indexes(m, ps)
    ensures Holds(d, m) <==> DeviceHas(d, ps)
  {
    if Holds(d, m) {
      HoldsToHas(d, m, ps);
    }
    if DeviceHas(d, ps) {
      HasToHolds(d, m, ps);
    }
  }

  /** Validated lists give no network to two keys. */
  lemma ValidDisjoint(m: map<Key, Runtime>, ps: seq<Peer>)
    requires Convertible(ps) && Indexes(m, ps) && PeersOk(ps)
    ensures Disjoint(m)
  {
    forall j, k, n | j in m && k in m && n in m[j].nets && n in m[k].nets ensures j == k {
      var i := IndexAt(m, ps, j);
      var l := IndexAt(m, ps, k);
      var x :| 0 <= x < |ps[i].allowed| && Nets(ps[i].allowed)[x] == n;
      var y :| 0 <= y < |ps[l].allowed| && Nets(ps[l].allowed)[y] == n;
      assert PeerOk(ps[i]) && PeerOk(ps[l]) && ps[i].allowed[x] in ps[i].allowed && ps[l].allowed[y] in ps[l].allowed;
      assert Slot(ps, i, x) && Slot(ps, l, y) && NetAt(ps, i, x) == NetAt(ps, l, y);
    }
  }

  lemma IndexSorted(m: map<Key, Runtime>, ps: seq<Peer>)
    requires Convertible(ps) && Indexes(m, ps)
    ensures Sorted(m)
  {
    forall k | k in m ensures m[k].parts == Sort(m[k].nets) {
      var i := IndexAt(m, ps, k);
      assert m[ps[i].key.value] == RuntimeOf(ps[i]);
    }
  }

  lemma DiffDevice(d: Device, was: map<Key, Runtime>, now: map<Key, Runtime>, ps: seq<Peer>, qs: seq<Peer>,
                   rs: seq<Action>, us: seq<Action>)
    requires Convertible(ps) && Indexes(was, ps) && Convertible(qs) && Indexes(now, qs) && PeersOk(qs)
    requires Emission(was, now, rs, us) && DeviceHas(d, ps)
    ensures DeviceHas(ActAll(d, rs + us), qs)
  {
    HoldsHas(d, was, ps);
    IndexSorted(was, ps);
    IndexSorted(now, qs);
    ValidDisjoint(now, qs);
    DiffReconciles(d, was, now, rs, us);
    HoldsHas(ActAll(d, rs + us), now, qs);
  }

  lemma IndexUnique(m: map<Key, Runtime>, m': map<Key, Runtime>, ps: seq<Peer>)
    requires Convertible(ps) && Indexes(m, ps) && Indexes(m', ps)
    ensures m == m'
  {
    forall k ensures k in m <==> k in m' {
      IndexKey(m, ps, k);
      IndexKey(m', ps, k);
    }
    forall k | k in m && k in m' ensures m[k] == m'[k] {
      var i := IndexAt(m, ps, k);
      assert m[ps[i].key.value] == RuntimeOf(ps[i]) == m'[ps[i].key.value];
    }
  }

  function Keys(ps: seq<Peer>): set<Key> {
    set i | 0 <= i < |ps| && ps[i].key.Some? :: ps[i].key.value
  }

  /** The networks of the peer with this key, in some order. */
  ghost function KeyNets(ps: seq<Peer>, k: Key): multiset<Net> {
    if exists i :: 0 <= i < |ps| && ps[i].key == Some(k) && Parses(ps[i]) then
      var i :| 0 <= i < |ps| && ps[i].key == Some(k) && Parses(ps[i]);
      multiset(Nets(ps[i].allowed))
    else multiset{}
  }

  /** The keys in both lists whose networks differ. */
  ghost function Changes(ps: seq<Peer>, qs: seq<Peer>): set<Key> {
    set k | k in Keys(ps) * Keys(qs) && KeyNets(ps, k) != KeyNets(qs, k)
  }

  lemma IndexKeyNets(m: map<Key, Runtime>, ps: seq<Peer>, k: Key)
    requires Convertible(ps) && Indexes(m, ps) && k in m
    ensures multiset(m[k].nets) == KeyNets(ps, k) && m[k].parts == Sort(m[k].nets)
  {
    var i := IndexAt(m, ps, k);
    assert m[ps[i].key.value] == RuntimeOf(ps[i]);
    assert forall j :: 0 <= j < |ps| && j != i ==> ps[j].key != ps[i].key;
  }

  lemma IndexKeys(m: map<Key, Runtime>, ps: seq<Peer>)
    requires Convertible(ps) && Indexes(m, ps)
    ensures m.Keys == Keys(ps)
  {
    forall k ensures k in m <==> k in Keys(ps) {
      IndexKey(m, ps, k);
    }
  }

  /** The counts, in terms of the lists. */
  lemma CountKeys(was: map<Key, Runtime>, now: map<Key, Runtime>, ps: seq<Peer>, qs: seq<Peer>)
    requires Convertible(ps) && Indexes(was, ps) && Convertible(qs) && Indexes(now, qs)
    ensures was.Keys == Keys(ps) && now.Keys == Keys(qs) && Moved(was, now) == Changes(ps, qs)
  {
    IndexKeys(was, ps);
    IndexKeys(now, qs);
    forall k | k in was && k in now ensures was[k].parts != now[k].parts <==> KeyNets(ps, k) != KeyNets(qs, k) {
      IndexKeyNets(was, ps, k);
      IndexKeyNets(now, qs, k);
      SameSorted(was[k].nets, now[k].nets);
    }
  }

  /** `wireGuardPeerDiff`. The maps are walked in an order that nothing is assumed about. */
  method WireGuardPeerDiff(oldPeers: seq<Peer>, newPeers: seq<Peer>)
    returns (r: Result<seq<Action>>, added: nat, updated: nat, removed: nat)
    ensures r.Ok? <==> Convertible(oldPeers) && Convertible(newPeers)
    ensures r.Ok? && PeersOk(newPeers) ==> forall d :: DeviceHas(d, oldPeers) ==> DeviceHas(ActAll(d, r.value), newPeers)
    ensures r.Ok? ==> |r.value| == added + updated + removed
    ensures r.Ok? ==> added == |Keys(newPeers) - Keys(oldPeers)| && removed == |Keys(oldPeers) - Keys(newPeers)|
    ensures r.Ok? ==> updated == |Changes(oldPeers, newPeers)|
    ensures r.Ok? && oldPeers == newPeers ==> r.value == []
  {
    added, updated, removed := 0, 0, 0;
    var was := RuntimePeersByKey(oldPeers);
    if was.Err? {
      return Err, 0, 0, 0;
    }
    var now := RuntimePeersByKey(newPeers);
    if now.Err? {
      return Err, 0, 0, 0;
    }
    var rs := PickRemovals(was.value, now.value);
    var us;
    us, added, updated := PickUpdates(was.value, now.value);
    removed := |rs|;
    CountKeys(was.value, now.value, oldPeers, newPeers);
    r := Ok(rs + us);
    if oldPeers == newPeers {
      IndexUnique(was.value, now.value, oldPeers);
      assert was.value.Keys - now.value.Keys == {} && Moved(was.value, now.value) == {};
    }
    forall d | PeersOk(newPeers) && DeviceHas(d, oldPeers) ensures DeviceHas(ActAll(d, r.value), newPeers) {
      DiffDevice(d, was.value, now.value, oldPeers, newPeers, rs, us);
    }
  }

  // ---------------------------------------------------------------- startup

  /** The peer entries that the daemon configures at startup, replacing all peers. */
  function Full(ps: seq<Peer>): (acts: seq<Action>)
    requires forall i :: 0 <= i < |ps| ==> Parses(ps[i])
    ensures |acts| == |ps|
  {
    seq(|ps|, i requires 0 <= i < |ps| && Parses(ps[i]) => Replace(ps[i].key.value, Nets(ps[i].allowed)))
  }

  /** A fresh device that is given every peer has exactly the list. */
  lemma StartupDevice(m: map<Key, Runtime>, ps: seq<Peer>)
    requires Convertible(ps) && Indexes(m, ps) && PeersOk(ps)
    ensures DeviceHas(ActAll(Device({}, map[]), Full(ps)), ps)
  {
    ValidDisjoint(m, ps);
    forall a | a in Full(ps) ensures a.Replace? && a.key in m && a.nets == m[a.key].nets {
      var i :| 0 <= i < |ps| && Full(ps)[i] == a;
      assert m[ps[i].key.value] == RuntimeOf(ps[i]);
    }
    ReplaceAll(Device({}, map[]), m, {}, {}, Full(ps));
    forall k ensures k in m <==> k in KeysOf(Full(ps)) {
      if k in m {
        var i := IndexAt(m, ps, k);
        assert Full(ps)[i].key == k;
      }
    }
    assert {} + KeysOf(Full(ps)) == m.Keys;
    HoldsHas(ActAll(Device({}, map[]), Full(ps)), m, ps);
  }

  // ---------------------------------------------------------------- the watcher

  datatype Sig = Sig(modTime: int, size: int)

  /** One tick: what `stat` and `config.Load` return, and whether the device takes the update. */
  datatype Event = Event(sig: Option<Sig>, loaded: Option<WgConfig>, accepted: bool)

  /** `config.Load` returns only configurations that validate. */
  ghost predicate EventOk(e: Event) {
    e.loaded.Some? ==> ConfigOk(e.loaded.value)
  }

  /** Everything but the peers. */
  function Fixed(c: WgConfig): WgConfig {
    c.(peers := [])
  }

  /** The file has changed, loads, and the device can be brought from the current peers to the new ones. */
  ghost predicate Takes(e: Event, last: Sig, current: WgConfig) {
    && e.sig.Some? && e.sig.value != last && e.loaded.Some? && e.accepted
    && Convertible(current.peers) && Convertible(e.loaded.value.peers)
  }

  class Watcher {
    var current: WgConfig
    var lastSig: Sig
    var device: Device

    /** The device is the one the current peer list describes. */
    ghost predicate Valid()
      reads this
    {
      Convertible(current.peers) ==> DeviceHas(device, current.peers)
    }

    constructor (initial: WgConfig, sig: Sig, d: Device)
      requires Convertible(initial.peers) ==> DeviceHas(d, initial.peers)
      ensures Valid() && current == initial && lastSig == sig && device == d
    {
      current, lastSig, device := initial, sig, d;
    }

    /** `reloadWireGuardPeerConfig`, with an update of the device that happens as a whole or not at all. */
    method Reload(loaded: Option<WgConfig>, accepted: bool) returns (r: Result<WgConfig>)
      requires Valid() && (loaded.Some? ==> ConfigOk(loaded.value))
      modifies this`device
      ensures r.Ok? ==> loaded.Some? && r.value == current.(peers := loaded.value.peers) && DeviceHas(device, r.value.peers)
      ensures r.Err? ==> device == old(device)
      ensures loaded.Some? && accepted && Convertible(current.peers) && Convertible(loaded.value.peers) ==> r.Ok?
    {
      if loaded.None? {
        return Err;
      }
      var target := current.(peers := loaded.value.peers);
      var acts, _, _, _ := WireGuardPeerDiff(current.peers, target.peers);
      if acts.Err? {
        return Err;
      }
      assert DeviceHas(ActAll(device, acts.value), target.peers);
      if |acts.value| > 0 {
        if !accepted {
          return Err;
        }
        device := ActAll(device, acts.value);
      }
      return Ok(target);
    }

    /** One turn of the loop of `watchWireGuardPeerConfig`. */
    method Tick(e: Event)
      requires Valid() && EventOk(e)
      modifies this
      ensures Valid() && Fixed(current) == Fixed(old(current))
      ensures old(Convertible(current.peers)) ==> DeviceHas(device, current.peers)
      ensures current == old(current) || (e.loaded.Some? && current.peers == e.loaded.value.peers && e.sig == Some(lastSig))
      ensures current == old(current) && Convertible(current.peers) ==> device == old(device)
      ensures e.sig.None? || e.sig.value == old(lastSig) ==>
        current == old(current) && device == old(device) && lastSig == old(lastSig)
      ensures Takes(e, old(lastSig), old(current)) ==>
        lastSig == e.sig.value && current.peers == e.loaded.value.peers
    {
      if e.sig.None? || e.sig.value == lastSig {
        return;
      }
      var next := Reload(e.loaded, e.accepted);
      if next.Err? {
        return;
      }
      current := next.value;
      lastSig := e.sig.value;
      if current == old(current) {
        DeviceUnique(device, old(device), current.peers);
      }
    }

    /** Over any run the device matches `current`, and only the peers of `current` ever change. */
    method Watch(events: seq<Event>)
      requires Valid() && forall i :: 0 <= i < |events| ==> EventOk(events[i])
      modifies this
      ensures Valid() && Fixed(current) == Fixed(old(current))
      ensures old(Convertible(current.peers)) ==> DeviceHas(device, current.peers)
    {
      for i := 0 to |events|
        invariant Valid() && Fixed(current) == Fixed(old(current))
        invariant old(Convertible(current.peers)) ==> DeviceHas(device, current.peers)
      {
        Tick(events[i]);
      }
    }
  }
}
