/** Caddy's route table against the wake proxy's own lookup, on one state of the store. */
module Routing {
  import opened Options
  import opened RouteStore
  import opened Text

  // ---------------------------------------------------------------- hosts

  /** In lower case and without a dot at the end, as `routeHost` leaves a host without a port. */
  predicate Normal(s: string) {
    IsLower(s) && (s != "" ==> s[|s| - 1] != '.')
  }

  function HostOf(name: string, base: string): string {
    name + "." + base
  }

  // ---------------------------------------------------------------- Caddy's side

  datatype Handler = Wake | BasePage | NotFound

  datatype Entry = AuthPath | Host(host: string, handler: Handler) | Anything

  const AUTH: string := "/_firedoze/auth"

  /** Caddy's host and path matchers ignore case. */
  predicate Matches(e: Entry, host: string, path: string) {
    match e
    case AuthPath => Lower(path) == AUTH
    case Host(h, _) => Lower(h) == Lower(host)
    case Anything => true
  }

  function HandlerOf(e: Entry): Handler {
    match e
    case AuthPath => Wake
    case Host(_, h) => h
    case Anything => NotFound
  }

  /** The handler of the first entry that matches. */
  function FirstMatch(es: seq<Entry>, host: string, path: string): Handler {
    if es == [] then NotFound
    else if Matches(es[0], host, path) then HandlerOf(es[0])
    else FirstMatch(es[1..], host, path)
  }

  function WakeEntries(hosts: seq<string>): (es: seq<Entry>)
    ensures |es| == |hosts| && forall i :: 0 <= i < |hosts| ==> es[i] == Host(hosts[i], Wake)
  {
    seq(|hosts|, i requires 0 <= i < |hosts| => Host(hosts[i], Wake))
  }

  lemma {:induction false} FirstWake(hosts: seq<string>, host: string, path: string)
    ensures FirstMatch(WakeEntries(hosts) + [Anything], host, path) ==
      if exists i :: 0 <= i < |hosts| && Lower(hosts[i]) == Lower(host) then Wake else NotFound
    decreases |hosts|
  {
    var es := WakeEntries(hosts) + [Anything];
    if hosts == [] {
      assert es == [Anything];
    } else {
      assert es[0] == Host(hosts[0], Wake);
      assert es[1..] == WakeEntries(hosts[1..]) + [Anything];
      FirstWake(hosts[1..], host, path);
      assert forall i :: 0 <= i < |hosts| - 1 ==> hosts[1..][i] == hosts[i + 1];
    }
  }

  /** A VM as `ListVMs` returns it, and a route joined with its VM's name. */
  datatype Alias = Alias(name: string, vm: Uuid, vmName: string)

  predicate Public(vm: VmRow) {
    vm.privateIP != "" && vm.publicHTTP
  }

  predicate Joined(t: Tables, a: Alias) {
    a.name in t.routes && t.routes[a.name].vm == a.vm && a.vm in t.vms && t.vms[a.vm].name == a.vmName
  }

  /** The lists are what the store returns for these tables. */
  ghost predicate Listed(t: Tables, vms: seq<VmRow>, aliases: seq<Alias>, protections: seq<string>) {
    && (forall vm :: vm in vms <==> exists u :: u in t.vms && t.vms[u] == vm)
    && (forall a :: a in aliases <==> Joined(t, a))
    && (forall h :: h in protections <==> h in t.protections)
  }

  predicate VmHost(base: string, vms: seq<VmRow>, h: string) {
    exists i :: 0 <= i < |vms| && Public(vms[i]) && HostOf(vms[i].name, base) == h
  }

  /** The alias leads to a public VM. */
  predicate Leads(byName: map<string, VmRow>, a: Alias) {
    a.vmName in byName && Public(byName[a.vmName])
  }

  predicate AliasHost(base: string, byName: map<string, VmRow>, aliases: seq<Alias>, h: string) {
    exists i :: 0 <= i < |aliases| && Leads(byName, aliases[i]) && HostOf(aliases[i].name, base) == h
  }

  /** What `caddyConfig` has built so far: `hosts` are the hosts sent to the wake proxy, in order. */
  datatype Build = Build(routes: seq<Entry>, publicHosts: seq<string>, publicHostSet: set<string>, hosts: seq<string>)

  ghost predicate BuildOk(b: Build, base: string) {
    && b.routes == [AuthPath, Host(base, BasePage)] + WakeEntries(b.hosts)
    && (forall h :: h in b.publicHosts <==> h == base || h in b.hosts)
    && (forall h :: h in b.publicHostSet <==> h in b.publicHosts)
    && (forall i, j :: 0 <= i < j < |b.publicHosts| ==> b.publicHosts[i] != b.publicHosts[j])
  }

  lemma WakeSnoc(hosts: seq<string>, h: string)
    ensures WakeEntries(hosts + [h]) == WakeEntries(hosts) + [Host(h, Wake)]
  {
  }

  method AddHost(b: Build, base: string, host: string) returns (b': Build)
    requires BuildOk(b, base)
    ensures BuildOk(b', base) && b'.hosts == b.hosts + [host]
  {
    var publicHosts, publicHostSet := b.publicHosts, b.publicHostSet;
    if host !in publicHostSet {
      publicHosts := publicHosts + [host];
      publicHostSet := publicHostSet + {host};
    }
    WakeSnoc(b.hosts, host);
    b' := Build(b.routes + [Host(host, Wake)], publicHosts, publicHostSet, b.hosts + [host]);
  }

  method AddVms(b: Build, base: string, vms: seq<VmRow>) returns (b': Build, byName: map<string, VmRow>)
    requires BuildOk(b, base) && b.hosts == []
    ensures BuildOk(b', base) && forall h :: h in b'.hosts <==> VmHost(base, vms, h)
    ensures forall n :: n in byName ==> byName[n] in vms && byName[n].name == n
    ensures forall vm :: vm in vms ==> vm.name in byName
  {
    b', byName := b, map[];
    for i := 0 to |vms|
      invariant BuildOk(b', base) && forall h :: h in b'.hosts <==> VmHost(base, vms[..i], h)
      invariant forall n :: n in byName ==> byName[n] in vms && byName[n].name == n
      invariant forall vm :: vm in vms[..i] ==> vm.name in byName
    {
      var vm := vms[i];
      byName := byName[vm.name := vm];
      assert vms[..i + 1] == vms[..i] + [vm];
      VmHostMore(base, vms[..i], vm);
      if vm.privateIP == "" || !vm.publicHTTP {
        continue;
      }
      b' := AddHost(b', base, HostOf(vm.name, base));
    }
    assert vms[..|vms|] == vms;
  }

  lemma VmHostMore(base: string, vms: seq<VmRow>, vm: VmRow)
    ensures forall h :: VmHost(base, vms + [vm], h) <==> VmHost(base, vms, h) || (Public(vm) && HostOf(vm.name, base) == h)
  {
    var more := vms + [vm];
    assert more[|vms|] == vm && forall i :: 0 <= i < |vms| ==> more[i] == vms[i];
  }

  lemma AliasHostMore(base: string, byName: map<string, VmRow>, aliases: seq<Alias>, a: Alias)
    ensures forall h :: AliasHost(base, byName, aliases + [a], h) <==>
      AliasHost(base, byName, aliases, h) || (Leads(byName, a) && HostOf(a.name, base) == h)
  {
    var more := aliases + [a];
    assert more[|aliases|] == a && forall i :: 0 <= i < |aliases| ==> more[i] == aliases[i];
  }

  method AddAliases(b: Build, base: string, byName: map<string, VmRow>, aliases: seq<Alias>) returns (b': Build)
    requires BuildOk(b, base)
    ensures BuildOk(b', base) && forall h :: h in b'.hosts <==> h in b.hosts || AliasHost(base, byName, aliases, h)
  {
    b' := b;
    for i := 0 to |aliases|
      invariant BuildOk(b', base) && forall h :: h in b'.hosts <==> h in b.hosts || AliasHost(base, byName, aliases[..i], h)
    {
      var alias := aliases[i];
      assert aliases[..i + 1] == aliases[..i] + [alias];
      AliasHostMore(base, byName, aliases[..i], alias);
      if !Leads(byName, alias) {
        continue;
      }
      b' := AddHost(b', base, HostOf(alias.name, base));
    }
    assert aliases[..|aliases|] == aliases;
  }

  method AddProtections(b: Build, base: string, protections: seq<string>) returns (b': Build)
    requires BuildOk(b, base)
    ensures BuildOk(b', base) && forall h :: h in b'.hosts <==> h in b.hosts || (h in protections && h != base)
  {
    b' := b;
    for i := 0 to |protections|
      invariant BuildOk(b', base) && forall h :: h in b'.hosts <==> h in b.hosts || (h in protections[..i] && h != base)
    {
      if protections[i] !in b'.publicHostSet {
        b' := AddHost(b', base, protections[i]);
      }
    }
  }

  /** The table and what it was built from. */
  ghost predicate Config(base: string, vms: seq<VmRow>, aliases: seq<Alias>, protections: seq<string>, routes: seq<Entry>,
                         hosts: seq<string>, byName: map<string, VmRow>)
  {
    && routes == [AuthPath, Host(base, BasePage)] + WakeEntries(hosts) + [Anything]
    && (forall n :: n in byName ==> byName[n] in vms && byName[n].name == n)
    && (forall vm :: vm in vms ==> vm.name in byName)
    && (forall h :: h in hosts <==> VmHost(base, vms, h) || AliasHost(base, byName, aliases, h) || (h in protections && h != base))
  }

  // ---------------------------------------------------------------- the wake proxy's side

  datatype Target = Target(vm: VmRow, port: int)

  function Suffix(base: string): string {
    "." + TrimDot(Lower(base))
  }

  predicate HasSuffix(s: string, suffix: string) {
    |suffix| <= |s| && s[|s| - |suffix|..] == suffix
  }

  /** `routeForHost`, for a host that `routeHost` has normalised: VM names come first, then routes. */
  ghost function RouteForHost(t: Tables, base: string, host: string): Option<Target> {
    if !HasSuffix(host, Suffix(base)) then None
    else
      var name := host[..|host| - |Suffix(base)|];
      if name == "" then None
      else if NameUsed(t, name) then
        var u :| u in t.vms && t.vms[u].name == name;
        Some(Target(t.vms[u], t.vms[u].port))
      else if name in t.routes && t.routes[name].vm in t.vms then
        Some(Target(t.vms[t.routes[name].vm], t.routes[name].port))
      else None
  }

  lemma NormalSuffix(base: string)
    requires Normal(base)
    ensures Suffix(base) == "." + base
  {
    LowerSame(base);
  }

  /** A host decomposes into a name and the base domain in one way. */
  lemma Decompose(name: string, base: string, host: string)
    requires Normal(base)
    ensures HostOf(name, base) == host <==> HasSuffix(host, Suffix(base)) && host[..|host| - |Suffix(base)|] == name
  {
    NormalSuffix(base);
    assert HostOf(name, base) == name + ("." + base);
    SplitSuffix(name, "." + base, host);
  }

  lemma SplitSuffix(name: string, suffix: string, host: string)
    ensures name + suffix == host <==> HasSuffix(host, suffix) && host[..|host| - |suffix|] == name
  {
    if HasSuffix(host, suffix) {
      assert host == host[..|host| - |suffix|] + suffix;
    }
  }

  lemma ShapeLower(name: string, base: string)
    requires NameShape(name) && IsLower(base)
    ensures IsLower(HostOf(name, base))
  {
    var h := HostOf(name, base);
    forall i | 0 <= i < |h| ensures LowerChar(h[i]) == h[i] {
      if i < |name| {
        assert h[i] == name[i] && HostChar(name[i]);
      } else if i > |name| {
        assert h[i] == base[i - |name| - 1];
      }
    }
  }

  /** The VM that a host leads to, if any, as the wake proxy finds it. */
  lemma LookupVm(t: Tables, base: string, host: string, u: Uuid)
    requires TablesOk(t) && Normal(base) && u in t.vms && HostOf(t.vms[u].name, base) == host
    ensures RouteForHost(t, base, host) == Some(Target(t.vms[u], t.vms[u].port))
  {
    Decompose(t.vms[u].name, base, host);
    assert NameUsed(t, t.vms[u].name);
  }

  lemma LookupRoute(t: Tables, base: string, host: string, name: string)
    requires TablesOk(t) && Normal(base) && name in t.routes && HostOf(name, base) == host
    ensures t.routes[name].vm in t.vms
    ensures RouteForHost(t, base, host) == Some(Target(t.vms[t.routes[name].vm], t.routes[name].port))
  {
    Decompose(name, base, host);
    assert !NameUsed(t, name);
  }

  lemma LookupFound(t: Tables, base: string, host: string) returns (name: string)
    requires TablesOk(t) && Normal(base) && RouteForHost(t, base, host).Some?
    ensures HostOf(name, base) == host
    ensures NameUsed(t, name) || name in t.routes
  {
    name := host[..|host| - |Suffix(base)|];
    Decompose(name, base, host);
  }

  // ---------------------------------------------------------------- both sides agree

  /** The wake proxy finds a public VM with an address for the host. */
  ghost predicate Served(t: Tables, base: string, host: string) {
    RouteForHost(t, base, host).Some? && Public(RouteForHost(t, base, host).value.vm)
  }

  ghost predicate Indexed(t: Tables, vms: seq<VmRow>, byName: map<string, VmRow>) {
    && (forall n :: n in byName ==> byName[n] in vms && byName[n].name == n)
    && (forall vm :: vm in vms ==> vm.name in byName)
    && (forall vm :: vm in vms <==> exists u :: u in t.vms && t.vms[u] == vm)
  }

  lemma ByName(t: Tables, vms: seq<VmRow>, byName: map<string, VmRow>, u: Uuid)
    requires TablesOk(t) && Indexed(t, vms, byName) && u in t.vms
    ensures t.vms[u].name in byName && byName[t.vms[u].name] == t.vms[u] && t.vms[u] in vms
  {
    assert t.vms[u] in vms;
    var vm := byName[t.vms[u].name];
    var v :| v in t.vms && t.vms[v] == vm;
  }

  lemma VmHostServed(t: Tables, base: string, vms: seq<VmRow>, byName: map<string, VmRow>, host: string)
    requires TablesOk(t) && Normal(base) && Indexed(t, vms, byName) && VmHost(base, vms, host)
    ensures Served(t, base, host)
  {
    var i :| 0 <= i < |vms| && Public(vms[i]) && HostOf(vms[i].name, base) == host;
    assert vms[i] in vms;
    var u :| u in t.vms && t.vms[u] == vms[i];
    LookupVm(t, base, host, u);
  }

  lemma AliasHostServed(t: Tables, base: string, vms: seq<VmRow>, aliases: seq<Alias>, protections: seq<string>,
                        byName: map<string, VmRow>, host: string)
    requires TablesOk(t) && Normal(base) && Indexed(t, vms, byName) && Listed(t, vms, aliases, protections)
    requires AliasHost(base, byName, aliases, host)
    ensures Served(t, base, host)
  {
    var i :| 0 <= i < |aliases| && Leads(byName, aliases[i]) && HostOf(aliases[i].name, base) == host;
    var a := aliases[i];
    assert a in aliases;
    ByName(t, vms, byName, a.vm);
    LookupRoute(t, base, host, a.name);
  }

  lemma ServedHost(t: Tables, base: string, vms: seq<VmRow>, aliases: seq<Alias>, protections: seq<string>,
                   byName: map<string, VmRow>, host: string)
    requires TablesOk(t) && Normal(base) && Indexed(t, vms, byName) && Listed(t, vms, aliases, protections)
    requires Served(t, base, host)
    ensures VmHost(base, vms, host) || AliasHost(base, byName, aliases, host)
  {
    var name := LookupFound(t, base, host);
    if NameUsed(t, name) {
      var u :| u in t.vms && t.vms[u].name == name;
      LookupVm(t, base, host, u);
      ByName(t, vms, byName, u);
      var i :| 0 <= i < |vms| && vms[i] == t.vms[u];
      assert VmHost(base, vms, host);
    } else {
      LookupRoute(t, base, host, name);
      var u := t.routes[name].vm;
      ByName(t, vms, byName, u);
      var a := Alias(name, u, t.vms[u].name);
      assert a in aliases;
      var i :| 0 <= i < |aliases| && aliases[i] == a;
      assert AliasHost(base, byName, aliases, host);
    }
  }

  /** Every host in the table is in lower case. */
  lemma HostsLower(t: Tables, base: string, vms: seq<VmRow>, aliases: seq<Alias>, protections: seq<string>,
                   byName: map<string, VmRow>, h: string)
    requires TablesOk(t) && IsLower(base) && Listed(t, vms, aliases, protections)
    requires VmHost(base, vms, h) || AliasHost(base, byName, aliases, h) || h in protections
    ensures IsLower(h)
  {
    if VmHost(base, vms, h) {
      var i :| 0 <= i < |vms| && Public(vms[i]) && HostOf(vms[i].name, base) == h;
      assert vms[i] in vms;
      ShapeLower(vms[i].name, base);
    } else if AliasHost(base, byName, aliases, h) {
      var i :| 0 <= i < |aliases| && Leads(byName, aliases[i]) && HostOf(aliases[i].name, base) == h;
      assert aliases[i] in aliases;
      ShapeLower(aliases[i].name, base);
    }
  }

  lemma FirstOfConfig(base: string, hosts: seq<string>, host: string, path: string)
    requires Normal(base) && Normal(host) && host != base && Lower(path) != AUTH && forall h :: h in hosts ==> IsLower(h)
    ensures FirstMatch([AuthPath, Host(base, BasePage)] + WakeEntries(hosts) + [Anything], host, path) ==
      if host in hosts then Wake else NotFound
  {
    var tail := WakeEntries(hosts) + [Anything];
    var es := [AuthPath, Host(base, BasePage)] + WakeEntries(hosts) + [Anything];
    LowerSame(base);
    LowerSame(host);
    assert es[1..] == [Host(base, BasePage)] + tail && es[1..][1..] == tail;
    FirstWake(hosts, host, path);
    forall i | 0 <= i < |hosts| ensures Lower(hosts[i]) == hosts[i] {
      assert hosts[i] in hosts;
      LowerSame(hosts[i]);
    }
  }

  /** Tables as the store keeps them, a normalised base domain, and a normalised other host off the auth path. */
  ghost predicate Covered(t: Tables, base: string, host: string, path: string) {
    TablesOk(t) && Normal(base) && Normal(host) && host != base && Lower(path) != AUTH
  }

  /**
  For every normalised host except the base domain, and off the auth path, Caddy's first match
  is the wake proxy exactly when the host is protected or the wake proxy will serve it.
  */
  lemma CaddyAgreesWithWake(t: Tables, base: string, vms: seq<VmRow>, aliases: seq<Alias>, protections: seq<string>,
                            routes: seq<Entry>, hosts: seq<string>, byName: map<string, VmRow>, host: string, path: string)
    requires Listed(t, vms, aliases, protections) && Covered(t, base, host, path)
    requires Config(base, vms, aliases, protections, routes, hosts, byName)
    ensures FirstMatch(routes, host, path) == Wake <==> host in t.protections || Served(t, base, host)
  {
    forall h | h in hosts ensures IsLower(h) {
      HostsLower(t, base, vms, aliases, protections, byName, h);
    }
    FirstOfConfig(base, hosts, host, path);
    assert Indexed(t, vms, byName);
    if VmHost(base, vms, host) {
      VmHostServed(t, base, vms, byName, host);
    }
    if AliasHost(base, byName, aliases, host) {
      AliasHostServed(t, base, vms, aliases, protections, byName, host);
    }
    if Served(t, base, host) {
      ServedHost(t, base, vms, aliases, protections, byName, host);
    }
  }

  /** The plain HTTP server redirects exactly the hosts that the HTTPS server answers for. */
  ghost predicate Covers(publicHosts: seq<string>, base: string, hosts: seq<string>) {
    forall h :: h in publicHosts <==> h == base || h in hosts
  }

  /** `caddyConfig`: the route table and the hosts that are redirected to HTTPS. */
  method CaddyConfig(base: string, vms: seq<VmRow>, aliases: seq<Alias>, protections: seq<string>)
    returns (routes: seq<Entry>, publicHosts: seq<string>)
    ensures exists hosts, byName :: Config(base, vms, aliases, protections, routes, hosts, byName) && Covers(publicHosts, base, hosts)
    ensures forall t, host, path | Listed(t, vms, aliases, protections) && Covered(t, base, host, path) ::
      FirstMatch(routes, host, path) == Wake <==> host in t.protections || Served(t, base, host)
  {
    assert WakeEntries([]) == [];
    var b := Build([AuthPath, Host(base, BasePage)], [base], {base}, []);
    var byName;
    b, byName := AddVms(b, base, vms);
    b := AddAliases(b, base, byName, aliases);
    b := AddProtections(b, base, protections);
    routes, publicHosts := b.routes + [Anything], b.publicHosts;
    assert Config(base, vms, aliases, protections, routes, b.hosts, byName) && Covers(publicHosts, base, b.hosts);
    forall t, host, path | Listed(t, vms, aliases, protections) && Covered(t, base, host, path)
      ensures FirstMatch(routes, host, path) == Wake <==> host in t.protections || Served(t, base, host)
    {
      CaddyAgreesWithWake(t, base, vms, aliases, protections, routes, b.hosts, byName, host, path);
    }
  }
}
