/**
The WireGuard device as its cryptokey-routing table, and the peer diff that brings it
from one peer list to another without replacing all peers.
*/
module PeerDiff {
  import opened Options
  import opened PeerConfig

  // ---------------------------------------------------------------- the device

  /** Which peers the device has, and to which of them each allowed network belongs. */
  datatype Device = Device(peers: set<Key>, routes: map<Net, Key>)

  datatype Action = Remove(key: Key) | Replace(key: Key, nets: seq<Net>)

  function Dropped(routes: map<Net, Key>, key: Key): map<Net, Key> {
    map n | n in routes && routes[n] != key :: routes[n]
  }

  /** Assigning a network to a peer takes it from the peer that had it. */
  function Assigned(routes: map<Net, Key>, key: Key, nets: seq<Net>): map<Net, Key> {
    map n | n in routes.Keys + (set m | m in nets) :: if n in nets then key else routes[n]
  }

  function Act(d: Device, a: Action): Device {
    match a
    case Remove(k) => Device(d.peers - {k}, Dropped(d.routes, k))
    case Replace(k, nets) => Device(d.peers + {k}, Assigned(Dropped(d.routes, k), k, nets))
  }

  function ActAll(d: Device, acts: seq<Action>): Device {
    if acts == [] then d else Act(ActAll(d, acts[..|acts| - 1]), acts[|acts| - 1])
  }

  // ---------------------------------------------------------------- sorted network lists

  predicate Before(a: Net, b: Net) {
    match (a, b)
    case (Net4(_, _), Net6(_, _)) => true
    case (Net6(_, _), Net4(_, _)) => false
    case (Net4(x, m), Net4(y, n)) => x < y || (x == y && m <= n)
    case (Net6(x, m), Net6(y, n)) => x < y || (x == y && m <= n)
  }

  predicate Ordered(ns: seq<Net>) {
    forall i, j :: 0 <= i < j < |ns| ==> Before(ns[i], ns[j])
  }

  lemma BeforeTotal(a: Net, b: Net)
    ensures Before(a, b) || Before(b, a)
    ensures Before(a, b) && Before(b, a) ==> a == b
  {
  }

  lemma BeforeTrans(a: Net, b: Net, c: Net)
    requires Before(a, b) && Before(b, c)
    ensures Before(a, c)
  {
  }

  predicate Least(n: Net, ns: seq<Net>) {
    forall i :: 0 <= i < |ns| ==> Before(n, ns[i])
  }

  lemma OrderedCons(n: Net, ns: seq<Net>)
    requires Ordered(ns) && Least(n, ns)
    ensures Ordered([n] + ns)
  {
  }

  lemma OrderedTail(ns: seq<Net>)
    requires Ordered(ns) && ns != []
    ensures Ordered(ns[1..]) && Least(ns[0], ns[1..]) && multiset(ns) == multiset{ns[0]} + multiset(ns[1..])
  {
    assert ns == [ns[0]] + ns[1..];
  }

  lemma LeastTrans(a: Net, ns: seq<Net>)
    requires ns != [] && Before(a, ns[0]) && Least(ns[0], ns[1..])
    ensures Least(a, ns)
  {
    forall i | 0 < i < |ns| ensures Before(a, ns[i]) {
      assert ns[i] == ns[1..][i - 1];
      BeforeTrans(a, ns[0], ns[i]);
    }
  }

  lemma LeastSame(a: Net, ns: seq<Net>, ms: seq<Net>)
    requires Least(a, ns) && multiset(ms) == multiset(ns)
    ensures Least(a, ms)
  {
    forall i | 0 <= i < |ms| ensures Before(a, ms[i]) {
      assert ms[i] in multiset(ns);
    }
  }

  function Insert(n: Net, ns: seq<Net>): seq<Net> {
    if ns == [] || Before(n, ns[0]) then [n] + ns else [ns[0]] + Insert(n, ns[1..])
  }

  lemma {:induction false} InsertOrdered(n: Net, ns: seq<Net>)
    requires Ordered(ns)
    ensures Ordered(Insert(n, ns)) && multiset(Insert(n, ns)) == multiset([n] + ns)
    decreases |ns|
  {
    if ns != [] {
      OrderedTail(ns);
      if Before(n, ns[0]) {
        LeastTrans(n, ns);
        OrderedCons(n, ns);
      } else {
        BeforeTotal(n, ns[0]);
        InsertOrdered(n, ns[1..]);
        LeastSame(ns[0], [n] + ns[1..], Insert(n, ns[1..]));
        OrderedCons(ns[0], Insert(n, ns[1..]));
      }
    }
  }

  /** The sorted list, which determines the list up to order. */
  function Sort(ns: seq<Net>): seq<Net> {
    if ns == [] then [] else Insert(ns[0], Sort(ns[1..]))
  }

  lemma {:induction false} SortOrdered(ns: seq<Net>)
    ensures Ordered(Sort(ns)) && multiset(Sort(ns)) == multiset(ns)
    decreases |ns|
  {
    if ns != [] {
      SortOrdered(ns[1..]);
      InsertOrdered(ns[0], Sort(ns[1..]));
      assert ns == [ns[0]] + ns[1..];
    }
  }

  lemma SameLength(a: seq<Net>, b: seq<Net>)
    requires multiset(a) == multiset(b)
    ensures |a| == |b|
  {
    assert |multiset(a)| == |a|;
    assert |multiset(b)| == |b|;
  }

  lemma SameTail(a: seq<Net>, b: seq<Net>)
    requires a != [] && b != [] && a[0] == b[0] && multiset(a) == multiset(b)
    ensures multiset(a[1..]) == multiset(b[1..])
  {
    assert a == [a[0]] + a[1..] && b == [b[0]] + b[1..];
    assert multiset(a[1..]) == multiset(a) - multiset{a[0]};
    assert multiset(b[1..]) == multiset(b) - multiset{b[0]};
  }

  lemma {:induction false} OrderedUnique(a: seq<Net>, b: seq<Net>)
    requires Ordered(a) && Ordered(b) && multiset(a) == multiset(b)
    ensures a == b
    decreases |a|
  {
    SameLength(a, b);
    if a != [] {
      HeadLeast(a, b);
      HeadLeast(b, a);
      BeforeTotal(a[0], b[0]);
      SameTail(a, b);
      OrderedTail(a);
      OrderedTail(b);
      OrderedUnique(a[1..], b[1..]);
      assert a == [a[0]] + a[1..] && b == [b[0]] + b[1..];
    }
  }

  lemma HeadLeast(a: seq<Net>, b: seq<Net>)
    requires Ordered(a) && a != [] && b != [] && multiset(a) == multiset(b)
    ensures Before(a[0], b[0])
  {
    BeforeTotal(a[0], a[0]);
    assert b[0] in multiset(a);
    var i :| 0 <= i < |a| && a[i] == b[0];
  }

  /** Sorted lists are equal exactly when the lists are permutations of each other. */
  lemma SameSorted(a: seq<Net>, b: seq<Net>)
    ensures Sort(a) == Sort(b) <==> multiset(a) == multiset(b)
  {
    SortOrdered(a);
    SortOrdered(b);
    if multiset(a) == multiset(b) {
      OrderedUnique(Sort(a), Sort(b));
    }
  }

  method SameStringSet(a: seq<Net>, b: seq<Net>) returns (same: bool)
    ensures same <==> a == b
  {
    if |a| != |b| {
      return false;
    }
    for i := 0 to |a|
      invariant a[..i] == b[..i]
    {
      if a[i] != b[i] {
        return false;
      }
    }
    return true;
  }

  // ---------------------------------------------------------------- peers by key

  datatype Runtime = Runtime(name: string, nets: seq<Net>, parts: seq<Net>)

  predicate Parses(p: Peer) {
    p.key.Some? && forall c :: c in p.allowed ==> !c.Malformed?
  }

  function RuntimeOf(p: Peer): Runtime
    requires Parses(p)
  {
    Runtime(p.name, Nets(p.allowed), Sort(Nets(p.allowed)))
  }

  /** Every text parses, and no two peers have one key. */
  ghost predicate Convertible(ps: seq<Peer>) {
    && (forall i :: 0 <= i < |ps| ==> Parses(ps[i]))
    && (forall i, j :: 0 <= i < j < |ps| ==> ps[i].key != ps[j].key)
  }

  ghost predicate Indexes(m: map<Key, Runtime>, ps: seq<Peer>)
    requires forall i :: 0 <= i < |ps| ==> Parses(ps[i])
  {
    && (forall i :: 0 <= i < |ps| ==> Parses(ps[i]) && ps[i].key.value in m && m[ps[i].key.value] == RuntimeOf(ps[i]))
    && (forall k :: k in m ==> exists i :: 0 <= i < |ps| && ps[i].key == Some(k))
  }

  lemma NotConvertible(ps: seq<Peer>, i: nat, m: map<Key, Runtime>)
    requires i < |ps| && Convertible(ps[..i]) && Indexes(m, ps[..i])
    requires !Parses(ps[i]) || ps[i].key.value in m
    ensures !Convertible(ps)
  {
    if Parses(ps[i]) {
      var j :| 0 <= j < i && ps[..i][j].key == Some(ps[i].key.value);
      assert ps[j].key == ps[i].key;
    }
  }

  lemma ConvertibleMore(ps: seq<Peer>, p: Peer, m: map<Key, Runtime>)
    requires Convertible(ps) && Indexes(m, ps) && Parses(p) && p.key.value !in m
    ensures Convertible(ps + [p]) && Indexes(m[p.key.value := RuntimeOf(p)], ps + [p])
  {
    var qs, m' := ps + [p], m[p.key.value := RuntimeOf(p)];
    forall i | 0 <= i < |qs| ensures Parses(qs[i]) && qs[i].key.value in m' && m'[qs[i].key.value] == RuntimeOf(qs[i]) {
      assert i < |ps| ==> qs[i] == ps[i];
    }
    forall k | k in m' ensures exists i :: 0 <= i < |qs| && qs[i].key == Some(k) {
      if k in m {
        var i :| 0 <= i < |ps| && ps[i].key == Some(k);
        assert qs[i].key == Some(k);
      } else {
        assert qs[|ps|].key == Some(k);
      }
    }
  }

  method RuntimePeersByKey(ps: seq<Peer>) returns (r: Result<map<Key, Runtime>>)
    ensures r.Ok? <==> Convertible(ps)
    ensures r.Ok? ==> Indexes(r.value, ps)
  {
    var out: map<Key, Runtime> := map[];
    for i := 0 to |ps|
      invariant Convertible(ps[..i]) && Indexes(out, ps[..i])
    {
      var p := ps[i];
      assert ps[..i + 1] == ps[..i] + [p];
      if p.key.None? || p.key.value in out || !Parses(p) {
        NotConvertible(ps, i, out);
        return Err;
      }
      ConvertibleMore(ps[..i], p, out);
      out := out[p.key.value := RuntimeOf(p)];
    }
    assert ps[..|ps|] == ps;
    return Ok(out);
  }

  // ---------------------------------------------------------------- the diff

  /** The key is new, or its networks have changed. */
  predicate Changed(was: map<Key, Runtime>, now: map<Key, Runtime>, k: Key) {
    k in now && (k !in was || was[k].parts != now[k].parts)
  }

  /** The actions name each removed key, then each added or changed key, in any order. */
  ghost predicate Emission(was: map<Key, Runtime>, now: map<Key, Runtime>, rs: seq<Action>, us: seq<Action>) {
    && (forall a :: a in rs ==> a.Remove? && a.key in was && a.key !in now)
    && (forall k :: k in was && k !in now ==> Remove(k) in rs)
    && (forall a :: a in us ==> a.Replace? && Changed(was, now, a.key) && a.nets == now[a.key].nets)
    && (forall k :: Changed(was, now, k) ==> Replace(k, now[k].nets) in us)
  }

  /** So many of the wanted keys have been met; the others are still to come. */
  ghost predicate Counted(met: nat, rest: set<Key>, wanted: set<Key>) {
    met + |rest * wanted| == |wanted|
  }

  lemma CountStart(rest: set<Key>, wanted: set<Key>)
    requires wanted <= rest
    ensures Counted(0, rest, wanted)
  {
    assert rest * wanted == wanted;
  }

  lemma CountOne(met: nat, rest: set<Key>, wanted: set<Key>, k: Key)
    requires k in rest && Counted(met, rest, wanted)
    ensures Counted(if k in wanted then met + 1 else met, rest - {k}, wanted)
  {
    if k in wanted {
      assert (rest - {k}) * wanted == rest * wanted - {k};
    } else {
      assert (rest - {k}) * wanted == rest * wanted;
    }
  }

  lemma CountEnd(met: nat, wanted: set<Key>)
    requires Counted(met, {}, wanted)
    ensures met == |wanted|
  {
    assert {} * wanted == {};
  }

  method PickRemovals(was: map<Key, Runtime>, now: map<Key, Runtime>) returns (rs: seq<Action>)
    ensures forall a :: a in rs ==> a.Remove? && a.key in was && a.key !in now
    ensures forall k :: k in was && k !in now ==> Remove(k) in rs
    ensures |rs| == |was.Keys - now.Keys|
  {
    rs := [];
    var rest := was.Keys;
    ghost var gone := was.Keys - now.Keys;
    CountStart(rest, gone);
    while rest != {}
      invariant rest <= was.Keys
      invariant forall a :: a in rs ==> a.Remove? && a.key in was && a.key !in now
      invariant forall k :: k in was && k !in now && k !in rest ==> Remove(k) in rs
      invariant Counted(|rs|, rest, gone)
    {
      var k :| k in rest;
      CountOne(|rs|, rest, gone, k);
      if k !in now {
        rs := rs + [Remove(k)];
      }
      rest := rest - {k};
    }
    CountEnd(|rs|, gone);
  }

  /** The keys whose networks have changed. */
  function Moved(was: map<Key, Runtime>, now: map<Key, Runtime>): set<Key> {
    set k | k in now && k in was && was[k].parts != now[k].parts
  }

  method Decide(was: map<Key, Runtime>, now: map<Key, Runtime>, k: Key) returns (isNew: bool, changed: bool)
    requires k in now
    ensures isNew <==> k !in was
    ensures changed <==> k in Moved(was, now)
    ensures Changed(was, now, k) <==> isNew || changed
  {
    if k !in was {
      return true, false;
    }
    var same := SameStringSet(was[k].parts, now[k].parts);
    return false, !same;
  }

  method PickUpdates(was: map<Key, Runtime>, now: map<Key, Runtime>) returns (us: seq<Action>, added: nat, updated: nat)
    ensures forall a :: a in us ==> a.Replace? && Changed(was, now, a.key) && a.nets == now[a.key].nets
    ensures forall k :: Changed(was, now, k) ==> Replace(k, now[k].nets) in us
    ensures added == |now.Keys - was.Keys| && |us| == added + updated
    ensures updated == |Moved(was, now)|
  {
    us, added, updated := [], 0, 0;
    var rest := now.Keys;
    ghost var extra := now.Keys - was.Keys;
    ghost var moved := Moved(was, now);
    CountStart(rest, extra);
    CountStart(rest, moved);
    while rest != {}
      invariant rest <= now.Keys
      invariant forall a :: a in us ==> a.Replace? && Changed(was, now, a.key) && a.nets == now[a.key].nets
      invariant forall k :: Changed(was, now, k) && k !in rest ==> Replace(k, now[k].nets) in us
      invariant |us| == added + updated
      invariant Counted(added, rest, extra) && Counted(updated, rest, moved)
    {
      var k :| k in rest;
      CountOne(added, rest, extra, k);
      CountOne(updated, rest, moved, k);
      var isNew, changed := Decide(was, now, k);
      if isNew || changed {
        us := us + [Replace(k, now[k].nets)];
      }
      added := if isNew then added + 1 else added;
      updated := if changed then updated + 1 else updated;
      rest := rest - {k};
    }
    CountEnd(added, extra);
    CountEnd(updated, moved);
  }

  // ---------------------------------------------------------------- what the diff does to the device

  ghost predicate Sorted(m: map<Key, Runtime>) {
    forall k :: k in m ==> m[k].parts == Sort(m[k].nets)
  }

  /** No network belongs to two keys. */
  ghost predicate Disjoint(m: map<Key, Runtime>) {
    forall j, k, n :: j in m && k in m && n in m[j].nets && n in m[k].nets ==> j == k
  }

  /** The device has the live peers, and those in `done` have exactly their networks. */
  ghost predicate Partly(d: Device, m: map<Key, Runtime>, done: set<Key>, live: set<Key>) {
    && d.peers == live && done <= m.Keys
    && (forall n :: n in d.routes ==> d.routes[n] in live)
    && (forall n :: n in d.routes && d.routes[n] in done ==> n in m[d.routes[n]].nets)
    && (forall k, n :: k in done && n in m[k].nets ==> n in d.routes && d.routes[n] == k)
  }

  /** The device has exactly these peers with exactly these networks. */
  ghost predicate Holds(d: Device, m: map<Key, Runtime>) {
    Partly(d, m, m.Keys, m.Keys)
  }

  function KeysOf(acts: seq<Action>): set<Key> {
    set a | a in acts :: a.key
  }

  lemma {:induction false} ActAppend(d: Device, xs: seq<Action>, ys: seq<Action>)
    ensures ActAll(d, xs + ys) == ActAll(ActAll(d, xs), ys)
    decreases |ys|
  {
    if ys == [] {
      assert xs + ys == xs;
    } else {
      var n := |ys| - 1;
      assert (xs + ys)[..|xs| + n] == xs + ys[..n];
      ActAppend(d, xs, ys[..n]);
    }
  }

  lemma {:induction false} RemoveAll(d: Device, rs: seq<Action>)
    requires forall a :: a in rs ==> a.Remove?
    ensures var d', gone := ActAll(d, rs), KeysOf(rs);
      && d'.peers == d.peers - gone
      && (forall n :: n in d'.routes <==> n in d.routes && d.routes[n] !in gone)
      && (forall n :: n in d'.routes ==> d'.routes[n] == d.routes[n])
    decreases |rs|
  {
    if rs != [] {
      var n := |rs| - 1;
      assert rs == rs[..n] + [rs[n]];
      RemoveAll(d, rs[..n]);
      assert KeysOf(rs) == KeysOf(rs[..n]) + {rs[n].key};
    }
  }

  lemma ReplaceOne(d: Device, m: map<Key, Runtime>, done: set<Key>, live: set<Key>, k: Key)
    requires Partly(d, m, done, live) && Disjoint(m) && k in m
    ensures Partly(Act(d, Replace(k, m[k].nets)), m, done + {k}, live + {k})
  {
  }

  lemma {:induction false} ReplaceAll(d: Device, m: map<Key, Runtime>, done: set<Key>, live: set<Key>, us: seq<Action>)
    requires Partly(d, m, done, live) && Disjoint(m)
    requires forall a :: a in us ==> a.Replace? && a.key in m && a.nets == m[a.key].nets
    ensures Partly(ActAll(d, us), m, done + KeysOf(us), live + KeysOf(us))
    decreases |us|
  {
    if us == [] {
      assert KeysOf(us) == {} && done + {} == done && live + {} == live;
    } else {
      var n := |us| - 1;
      assert us == us[..n] + [us[n]];
      ReplaceAll(d, m, done, live, us[..n]);
      ReplaceOne(ActAll(d, us[..n]), m, done + KeysOf(us[..n]), live + KeysOf(us[..n]), us[n].key);
      assert done + KeysOf(us[..n]) + {us[n].key} == done + KeysOf(us);
      assert live + KeysOf(us[..n]) + {us[n].key} == live + KeysOf(us);
    }
  }

  /** The keys that the diff leaves alone. */
  function Untouched(was: map<Key, Runtime>, now: map<Key, Runtime>): set<Key> {
    set k | k in now && k in was && was[k].parts == now[k].parts
  }

  lemma SameNets(was: map<Key, Runtime>, now: map<Key, Runtime>, k: Key, n: Net)
    requires Sorted(was) && Sorted(now) && k in Untouched(was, now)
    ensures n in was[k].nets <==> n in now[k].nets
  {
    SameSorted(was[k].nets, now[k].nets);
    assert n in was[k].nets <==> n in multiset(was[k].nets);
    assert n in now[k].nets <==> n in multiset(now[k].nets);
  }

  lemma AfterRemovals(d: Device, was: map<Key, Runtime>, now: map<Key, Runtime>, rs: seq<Action>)
    requires Holds(d, was) && Sorted(was) && Sorted(now)
    requires (forall a :: a in rs ==> a.Remove?) && KeysOf(rs) == was.Keys - now.Keys
    ensures Partly(ActAll(d, rs), now, Untouched(was, now), was.Keys * now.Keys)
  {
    RemoveAll(d, rs);
    forall k, n | k in Untouched(was, now) ensures n in was[k].nets <==> n in now[k].nets {
      SameNets(was, now, k, n);
    }
    assert d.peers - KeysOf(rs) == was.Keys * now.Keys;
  }

  lemma EmissionKeys(was: map<Key, Runtime>, now: map<Key, Runtime>, rs: seq<Action>, us: seq<Action>)
    requires Emission(was, now, rs, us)
    ensures KeysOf(rs) == was.Keys - now.Keys
    ensures Untouched(was, now) + KeysOf(us) == now.Keys && was.Keys * now.Keys + KeysOf(us) == now.Keys
  {
    forall k | k in was && k !in now ensures k in KeysOf(rs) {
      assert Remove(k).key == k;
    }
    forall k | Changed(was, now, k) ensures k in KeysOf(us) {
      assert Replace(k, now[k].nets).key == k;
    }
  }

  /** In whatever order the maps are walked, the actions turn the old device into the new one. */
  lemma DiffReconciles(d: Device, was: map<Key, Runtime>, now: map<Key, Runtime>, rs: seq<Action>, us: seq<Action>)
    requires Emission(was, now, rs, us) && Holds(d, was) && Sorted(was) && Sorted(now) && Disjoint(now)
    ensures Holds(ActAll(d, rs + us), now)
  {
    EmissionKeys(was, now, rs, us);
    AfterRemovals(d, was, now, rs);
    ReplaceAll(ActAll(d, rs), now, Untouched(was, now), was.Keys * now.Keys, us);
    ActAppend(d, rs, us);
  }
}
