/** The store's VM, route and protection tables, and what every run of creates and deletes keeps. */
module RouteStore {
  import opened Options
  import opened Text

  type Uuid = string

  // A VM without an address has an empty `privateIP`.
  datatype VmRow = VmRow(name: string, privateIP: string, publicHTTP: bool, port: int)

  datatype RouteRow = RouteRow(vm: Uuid, port: int, isDefault: bool)

  datatype Tables = Tables(vms: map<Uuid, VmRow>, routes: map<string, RouteRow>, protections: set<string>)

  // ---------------------------------------------------------------- names

  predicate LabelChar(c: char) {
    'a' <= c <= 'z' || '0' <= c <= '9' || c == '-'
  }

  /** One lower-case DNS label. */
  predicate Label(s: string) {
    && 1 <= |s| <= 63 && s[0] != '-' && s[|s| - 1] != '-'
    && forall i :: 0 <= i < |s| ==> LabelChar(s[i])
  }

  predicate Hex(c: char) {
    '0' <= c <= '9' || 'a' <= c <= 'f'
  }

  /** A lower-case label that `uuid.Parse` would accept. */
  predicate UuidShaped(s: string) {
    || (|s| == 32 && forall i :: 0 <= i < 32 ==> Hex(s[i]))
    || (|s| == 36 && forall i :: 0 <= i < 36 ==> if i in {8, 13, 18, 23} then s[i] == '-' else Hex(s[i]))
  }

  predicate VmName(s: string) {
    Label(s) && !UuidShaped(s)
  }

  /** Labels separated by dots. */
  predicate RouteName(s: string) {
    forall l :: l in SplitOn(s, '.') ==> Label(l)
  }

  predicate HostChar(c: char) {
    LabelChar(c) || c == '.'
  }

  /** Nonempty, in lower case, and without a dot at the end. */
  predicate NameShape(s: string) {
    s != "" && s[|s| - 1] != '.' && forall i :: 0 <= i < |s| ==> HostChar(s[i])
  }

  predicate Chars(l: string) {
    forall i :: 0 <= i < |l| ==> LabelChar(l[i])
  }

  predicate AllChars(parts: seq<string>) {
    forall k :: 0 <= k < |parts| ==> Chars(parts[k])
  }

  lemma RestChars(s: string)
    requires s != "" && AllChars(SplitOn(s, '.'))
    ensures AllChars(SplitOn(s[1..], '.')) && HostChar(s[0])
  {
    var parts, rest := SplitOn(s, '.'), SplitOn(s[1..], '.');
    if s[0] == '.' {
      DropFirst(parts, rest);
    } else {
      DropChar(parts, rest, s[0]);
    }
  }

  lemma DropFirst(parts: seq<string>, rest: seq<string>)
    requires parts == [""] + rest && AllChars(parts)
    ensures AllChars(rest)
  {
    assert forall k :: 0 <= k < |rest| ==> rest[k] == parts[k + 1];
  }

  lemma DropChar(parts: seq<string>, rest: seq<string>, c: char)
    requires rest != [] && parts == [[c] + rest[0]] + rest[1..] && AllChars(parts)
    ensures AllChars(rest) && LabelChar(c)
  {
    assert Chars(parts[0]) && parts[0][0] == c;
    assert forall i :: 0 <= i < |rest[0]| ==> rest[0][i] == parts[0][i + 1];
    assert forall k :: 1 <= k < |rest| ==> rest[k] == parts[k];
  }

  lemma {:induction false} SplitChars(s: string)
    requires AllChars(SplitOn(s, '.'))
    ensures forall i :: 0 <= i < |s| ==> HostChar(s[i])
    decreases |s|
  {
    if s != "" {
      RestChars(s);
      SplitChars(s[1..]);
    }
  }

  /** A text that is empty or ends with a dot has an empty last part. */
  lemma {:induction false} LastPart(s: string)
    requires s == "" || s[|s| - 1] == '.'
    ensures var parts := SplitOn(s, '.'); parts[|parts| - 1] == ""
    decreases |s|
  {
    if s != "" {
      LastPart(s[1..]);
    }
  }

  lemma RouteNameShape(s: string)
    requires RouteName(s)
    ensures NameShape(s)
  {
    var parts := SplitOn(s, '.');
    forall k | 0 <= k < |parts| ensures Label(parts[k]) && Chars(parts[k]) {
      assert parts[k] in parts;
    }
    SplitChars(s);
    if s == "" || s[|s| - 1] == '.' {
      LastPart(s);
    }
  }

  lemma VmNameShape(s: string)
    requires VmName(s)
    ensures NameShape(s)
  {
    assert LabelChar(s[|s| - 1]);
  }

  // ---------------------------------------------------------------- the tables

  ghost predicate NamesOk(t: Tables) {
    && (forall u :: u in t.vms ==> NameShape(t.vms[u].name))
    && (forall n :: n in t.routes ==> NameShape(n))
  }

  /** No two VMs share a name, and no route has a VM's name. */
  ghost predicate NamesDisjoint(t: Tables) {
    && (forall u, v :: u in t.vms && v in t.vms && t.vms[u].name == t.vms[v].name ==> u == v)
    && (forall u, n :: u in t.vms && n in t.routes ==> t.vms[u].name != n)
  }

  predicate BothDefault(a: RouteRow, b: RouteRow) {
    a.isDefault && b.isDefault && a.vm == b.vm
  }

  /** Every route leads to a VM, by a port, and a VM has at most one default route. */
  ghost predicate RoutesOk(t: Tables) {
    && (forall n :: n in t.routes ==> t.routes[n].vm in t.vms && 1 <= t.routes[n].port <= 65535)
    && (forall n, m :: n in t.routes && m in t.routes && BothDefault(t.routes[n], t.routes[m]) ==> n == m)
  }

  ghost predicate TablesOk(t: Tables) {
    NamesOk(t) && NamesDisjoint(t) && RoutesOk(t) && forall p :: p in t.protections ==> IsLower(p)
  }

  predicate NameUsed(t: Tables, name: string) {
    exists u :: u in t.vms && t.vms[u].name == name
  }

  predicate HasDefault(t: Tables, vm: Uuid) {
    exists n :: n in t.routes && t.routes[n].vm == vm && t.routes[n].isDefault
  }

  lemma RouteAdded(t: Tables, name: string, row: RouteRow)
    requires TablesOk(t) && NameShape(name) && !NameUsed(t, name) && row.vm in t.vms && 1 <= row.port <= 65535
    requires name !in t.routes && !(row.isDefault && HasDefault(t, row.vm))
    ensures TablesOk(t.(routes := t.routes[name := row]))
  {
  }

  function NormalizeHostname(host: string): (h: string)
    ensures IsLower(h)
  {
    TrimDot(Lower(TrimSpace(host)))
  }

  class Store {
    var t: Tables

    ghost predicate Valid()
      reads this
    {
      TablesOk(t)
    }

    constructor ()
      ensures Valid() && t == Tables(map[], map[], {})
    {
      t := Tables(map[], map[], {});
    }

    /** A VM request that passes the API's name check, then `CreateVM`; `u` is a new UUID. */
    method CreateVM(u: Uuid, row: VmRow) returns (ok: bool)
      requires Valid() && u !in t.vms
      modifies this
      ensures Valid()
      ensures ok <==> VmName(row.name) && row.name !in old(t).routes && !NameUsed(old(t), row.name)
      ensures t == if ok then old(t).(vms := old(t).vms[u := row]) else old(t)
    {
      if !VmName(row.name) {
        return false;
      }
      if row.name in t.routes {
        return false;
      }
      if NameUsed(t, row.name) {
        return false;
      }
      VmNameShape(row.name);
      t := t.(vms := t.vms[u := row]);
      return true;
    }

    /** A route request that passes the API's checks, then `CreateRoute`. */
    method CreateRoute(name: string, row: RouteRow) returns (ok: bool)
      requires Valid()
      modifies this
      ensures Valid()
      ensures ok <==>
        RouteName(name) && 1 <= row.port <= 65535 && !NameUsed(old(t), name) && row.vm in old(t).vms
        && name !in old(t).routes && !(row.isDefault && HasDefault(old(t), row.vm))
      ensures t == if ok then old(t).(routes := old(t).routes[name := row]) else old(t)
    {
      if !RouteName(name) || row.port <= 0 || row.port > 65535 {
        return false;
      }
      if NameUsed(t, name) {
        return false;
      }
      if row.vm !in t.vms {
        return false;
      }
      if name in t.routes || (row.isDefault && HasDefault(t, row.vm)) {
        return false;
      }
      RouteNameShape(name);
      RouteAdded(t, name, row);
      t := t.(routes := t.routes[name := row]);
      return true;
    }

    method DeleteRoute(name: string) returns (ok: bool)
      requires Valid()
      modifies this
      ensures Valid() && t == old(t).(routes := old(t).routes - {name})
      ensures ok <==> name in old(t).routes
    {
      ok := name in t.routes;
      t := t.(routes := t.routes - {name});
    }

    method DeleteRoutesForVM(u: Uuid)
      requires Valid()
      modifies this
      ensures Valid() && t == Without(old(t), u)
    {
      t := Without(t, u);
    }

    /** The foreign key takes the VM's routes along. */
    method DeleteVM(u: Uuid)
      requires Valid()
      modifies this
      ensures Valid() && t == Without(old(t), u).(vms := old(t).vms - {u})
    {
      t := Without(t, u).(vms := t.vms - {u});
    }

    method Protect(host: string)
      requires Valid()
      modifies this
      ensures Valid() && t == old(t).(protections := old(t).protections + {NormalizeHostname(host)})
    {
      t := t.(protections := t.protections + {NormalizeHostname(host)});
    }

    method Unprotect(host: string)
      requires Valid()
      modifies this
      ensures Valid() && t == old(t).(protections := old(t).protections - {NormalizeHostname(host)})
    {
      t := t.(protections := t.protections - {NormalizeHostname(host)});
    }
  }

  function Without(t: Tables, u: Uuid): Tables {
    t.(routes := map n | n in t.routes && t.routes[n].vm != u :: t.routes[n])
  }
}
