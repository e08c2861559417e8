/**
Snapshot bundles: which sequences of tar entries are accepted, and the way from an
exported snapshot back to an imported one. The JSON printer and parser are parameters.
*/
module Bundle {
  import opened Options
  import opened Text

  type Data = seq<int>

  // ---------------------------------------------------------------- entry names

  /** The parts between slashes. */
  function Parts(s: string): seq<string> {
    SplitOn(s, '/')
  }

  /** One step of `path.Clean` on a relative path: empty parts and dots vanish, a parent step undoes a name. */
  function Push(stack: seq<string>, part: string): seq<string> {
    if part == "" || part == "." then stack
    else if part == ".." && stack != [] && stack[|stack| - 1] != ".." then stack[..|stack| - 1]
    else stack + [part]
  }

  function Cleaned(parts: seq<string>): seq<string> {
    if parts == [] then [] else Push(Cleaned(parts[..|parts| - 1]), parts[|parts| - 1])
  }

  /** `cleanBundlePath`: the parts of the cleaned name, or an error. */
  function CleanName(name: string): Result<seq<string>> {
    if name == "" || name[0] == '/' then Err
    else
      var clean := Cleaned(Parts(name));
      if clean == [] || clean[0] == ".." then Err else Ok(clean)
  }

  /** Which level below the bundle a walk along the parts ends at. */
  function Level(parts: seq<string>): int {
    if parts == [] then 0
    else
      var part := parts[|parts| - 1];
      Level(parts[..|parts| - 1]) + (if part == "" || part == "." then 0 else if part == ".." then -1 else 1)
  }

  /** The walk never leaves the bundle. */
  predicate StaysInside(parts: seq<string>) {
    forall i :: 0 <= i <= |parts| ==> Level(parts[..i]) >= 0
  }

  predicate NoParents(stack: seq<string>) {
    forall i :: 0 <= i < |stack| ==> stack[i] != ".."
  }

  lemma {:induction false} CleanedLevel(parts: seq<string>)
    ensures if StaysInside(parts) then NoParents(Cleaned(parts)) && |Cleaned(parts)| == Level(parts)
            else Cleaned(parts) != [] && Cleaned(parts)[0] == ".."
    decreases |parts|
  {
    if parts != [] {
      var n := |parts| - 1;
      var p := parts[..n];
      CleanedLevel(p);
      assert forall i :: 0 <= i <= n ==> parts[..i] == p[..i];
      assert parts[..|parts|] == parts;
      assert StaysInside(parts) <==> StaysInside(p) && Level(parts) >= 0;
    }
  }

  /** A name is safe: relative, never above the bundle, and below it at the end. */
  predicate Safe(name: string) {
    name != "" && name[0] != '/' && StaysInside(Parts(name)) && Level(Parts(name)) > 0
  }

  /** `cleanBundlePath` accepts exactly the safe names. */
  lemma CleanNameSafe(name: string)
    ensures CleanName(name).Ok? <==> Safe(name)
  {
    if name != "" {
      CleanedLevel(Parts(name));
    }
  }

  // ---------------------------------------------------------------- entries

  datatype Kind = Directory | Regular | Other

  datatype Entry = Entry(name: string, kind: Kind, data: Data)

  datatype Manifest = Manifest(
    format: string, name: string, sourceVM: string, baseImageID: string, kernelID: string, disk: string, diskSize: int)

  const FORMAT: string := "firedoze.snapshot.v1"
  const MANIFEST: string := "manifest.json"
  const DISK: string := "rootfs.ext4"
  const MANIFEST_LIMIT: nat := 1024 * 1024

  type Parser = Data -> Option<Manifest>

  predicate IsFile(e: Entry, name: string) {
    e.kind == Regular && CleanName(e.name) == Ok([name])
  }

  /** A directory, or one of the two files a bundle has. */
  predicate EntryOk(e: Entry) {
    Safe(e.name) && (e.kind == Directory || IsFile(e, MANIFEST) || IsFile(e, DISK))
  }

  predicate ManifestOk(parse: Parser, data: Data) {
    && |data| <= MANIFEST_LIMIT && parse(data).Some?
    && parse(data).value.format == FORMAT && parse(data).value.disk == DISK
  }

  predicate SizeOk(parse: Parser, data: Data, disk: Data) {
    parse(data).Some? ==> parse(data).value.diskSize == 0 || parse(data).value.diskSize == |disk|
  }

  /** The files with this name, in the order they come. */
  function Named(es: seq<Entry>, name: string): seq<Entry> {
    if es == [] then []
    else Named(es[..|es| - 1], name) + (if IsFile(es[|es| - 1], name) then [es[|es| - 1]] else [])
  }

  /** A valid bundle: besides directories, one good manifest and one disk of the size it states. */
  ghost predicate Acceptable(parse: Parser, es: seq<Entry>) {
    && (forall e :: e in es ==> EntryOk(e))
    && |Named(es, MANIFEST)| == 1 && |Named(es, DISK)| == 1
    && ManifestOk(parse, Named(es, MANIFEST)[0].data)
    && SizeOk(parse, Named(es, MANIFEST)[0].data, Named(es, DISK)[0].data)
  }

  lemma NamedMore(es: seq<Entry>, e: Entry, name: string)
    ensures Named(es + [e], name) == Named(es, name) + if IsFile(e, name) then [e] else []
  {
    assert (es + [e])[..|es|] == es;
  }

  lemma {:induction false} NamedPrefix(es: seq<Entry>, n: nat, name: string)
    requires n <= |es|
    ensures |Named(es[..n], name)| <= |Named(es, name)|
    ensures Named(es[..n], name) <= Named(es, name)
    decreases |es|
  {
    if n == |es| {
      assert es[..n] == es;
    } else {
      NamedPrefix(es[..|es| - 1], n, name);
      assert es[..|es| - 1][..n] == es[..n];
    }
  }

  lemma {:induction false} NamedCount(es: seq<Entry>, name: string, e: Entry)
    ensures multiset(Named(es, name))[e] == if IsFile(e, name) then multiset(es)[e] else 0
    decreases |es|
  {
    if es != [] {
      var n := |es| - 1;
      NamedCount(es[..n], name, e);
      assert es == es[..n] + [es[n]];
    }
  }

  /** The order of the entries decides neither whether a bundle is accepted nor what is imported. */
  lemma OrderIndependent(parse: Parser, es: seq<Entry>, fs: seq<Entry>)
    requires multiset(es) == multiset(fs)
    ensures Acceptable(parse, es) <==> Acceptable(parse, fs)
    ensures Acceptable(parse, es) ==> Named(es, MANIFEST) == Named(fs, MANIFEST) && Named(es, DISK) == Named(fs, DISK)
  {
    SameNamed(es, fs, MANIFEST);
    SameNamed(es, fs, DISK);
    forall e ensures e in es <==> e in fs {
      assert e in es <==> e in multiset(es);
      assert e in fs <==> e in multiset(fs);
    }
  }

  lemma SameNamed(es: seq<Entry>, fs: seq<Entry>, name: string)
    requires multiset(es) == multiset(fs)
    ensures |Named(es, name)| == |Named(fs, name)|
    ensures |Named(es, name)| == 1 ==> Named(es, name) == Named(fs, name)
  {
    var a, b := Named(es, name), Named(fs, name);
    forall e ensures multiset(a)[e] == multiset(b)[e] {
      NamedCount(es, name, e);
      NamedCount(fs, name, e);
    }
    SameBag(a, b);
  }

  lemma SameBag(a: seq<Entry>, b: seq<Entry>)
    requires multiset(a) == multiset(b)
    ensures |a| == |b| && (|a| == 1 ==> a == b)
  {
    assert |multiset(a)| == |a|;
    assert |multiset(b)| == |b|;
    if |a| == 1 {
      assert a == [a[0]] && b == [b[0]];
      assert b[0] in multiset(a);
    }
  }

  // ---------------------------------------------------------------- unpackSnapshotBundle

  datatype Unpacked = Unpacked(manifest: Manifest, disk: Data)

  /** The loop's variables after some entries. */
  datatype Progress = Progress(manifest: Option<Manifest>, disk: Option<Data>)

  ghost predicate HasManifest(parse: Parser, es: seq<Entry>, manifest: Option<Manifest>) {
    var m := Named(es, MANIFEST);
    if manifest.None? then m == []
    else |m| == 1 && |m[0].data| <= MANIFEST_LIMIT && parse(m[0].data) == manifest
  }

  ghost predicate HasDisk(es: seq<Entry>, disk: Option<Data>) {
    var d := Named(es, DISK);
    if disk.None? then d == [] else |d| == 1 && d[0].data == disk.value
  }

  lemma RejectDuplicate(parse: Parser, es: seq<Entry>, i: nat, name: string)
    requires i < |es| && Named(es[..i], name) != [] && IsFile(es[i], name) && (name == MANIFEST || name == DISK)
    ensures !Acceptable(parse, es)
  {
    assert es[..i + 1] == es[..i] + [es[i]];
    NamedMore(es[..i], es[i], name);
    NamedPrefix(es, i + 1, name);
  }

  lemma RejectManifest(parse: Parser, es: seq<Entry>, i: nat)
    requires i < |es| && Named(es[..i], MANIFEST) == [] && IsFile(es[i], MANIFEST)
    requires |es[i].data| > MANIFEST_LIMIT || parse(es[i].data).None?
    ensures !Acceptable(parse, es)
  {
    assert es[..i + 1] == es[..i] + [es[i]];
    NamedMore(es[..i], es[i], MANIFEST);
    NamedPrefix(es, i + 1, MANIFEST);
  }

  lemma RejectEntry(parse: Parser, es: seq<Entry>, i: nat)
    requires i < |es| && !EntryOk(es[i])
    ensures !Acceptable(parse, es)
  {
  }

  /** What the checks after the loop decide. */
  predicate Agrees(st: Progress) {
    && st.manifest.Some? && st.manifest.value.format == FORMAT && st.manifest.value.disk == DISK && st.disk.Some?
    && (st.manifest.value.diskSize == 0 || |st.disk.value| == st.manifest.value.diskSize)
  }

  lemma AfterLoop(parse: Parser, es: seq<Entry>, st: Progress)
    requires (forall e :: e in es ==> EntryOk(e)) && HasManifest(parse, es, st.manifest) && HasDisk(es, st.disk)
    ensures Acceptable(parse, es) <==> Agrees(st)
    ensures Agrees(st) ==> parse(Named(es, MANIFEST)[0].data) == st.manifest && Named(es, DISK)[0].data == st.disk.value
  {
  }

  lemma EntriesMore(es: seq<Entry>, i: nat)
    requires i < |es| && EntryOk(es[i]) && forall e :: e in es[..i] ==> EntryOk(e)
    ensures forall e :: e in es[..i + 1] ==> EntryOk(e)
  {
  }

  /** One turn of the loop. */
  method Take(parse: Parser, ghost es: seq<Entry>, ghost i: nat, e: Entry, st: Progress) returns (r: Result<Progress>)
    requires i < |es| && es[i] == e && HasManifest(parse, es[..i], st.manifest) && HasDisk(es[..i], st.disk)
    ensures r.Ok? ==> EntryOk(e) && HasManifest(parse, es[..i + 1], r.value.manifest) && HasDisk(es[..i + 1], r.value.disk)
    ensures r.Err? ==> !Acceptable(parse, es)
  {
    assert es[..i + 1] == es[..i] + [e];
    NamedMore(es[..i], e, MANIFEST);
    NamedMore(es[..i], e, DISK);
    CleanNameSafe(e.name);
    var name := CleanName(e.name);
    if name.Err? || (e.kind != Directory && e.kind != Regular) {
      RejectEntry(parse, es, i);
      return Err;
    }
    if e.kind == Directory {
      return Ok(st);
    }
    if name.value == [MANIFEST] {
      if st.manifest.Some? {
        RejectDuplicate(parse, es, i, MANIFEST);
        return Err;
      }
      if |e.data| > MANIFEST_LIMIT || parse(e.data).None? {
        RejectManifest(parse, es, i);
        return Err;
      }
      return Ok(st.(manifest := parse(e.data)));
    }
    if name.value == [DISK] {
      if st.disk.Some? {
        RejectDuplicate(parse, es, i, DISK);
        return Err;
      }
      return Ok(st.(disk := Some(e.data)));
    }
    RejectEntry(parse, es, i);
    return Err;
  }

  method UnpackSnapshotBundle(parse: Parser, es: seq<Entry>) returns (r: Result<Unpacked>)
    ensures r.Ok? <==> Acceptable(parse, es)
    ensures r.Ok? ==> parse(Named(es, MANIFEST)[0].data) == Some(r.value.manifest) && r.value.disk == Named(es, DISK)[0].data
  {
    var st := Progress(None, None);
    for i := 0 to |es|
      invariant forall e :: e in es[..i] ==> EntryOk(e)
      invariant HasManifest(parse, es[..i], st.manifest) && HasDisk(es[..i], st.disk)
    {
      var next := Take(parse, es, i, es[i], st);
      if next.Err? {
        return Err;
      }
      st := next.value;
      EntriesMore(es, i);
    }
    assert es[..|es|] == es;
    AfterLoop(parse, es, st);
    if st.manifest.None? || st.manifest.value.format != FORMAT || st.manifest.value.disk != DISK || st.disk.None? {
      return Err;
    }
    if st.manifest.value.diskSize != 0 && |st.disk.value| != st.manifest.value.diskSize {
      return Err;
    }
    return Ok(Unpacked(st.manifest.value, st.disk.value));
  }

  // ---------------------------------------------------------------- export and import

  datatype Snapshot = Snapshot(name: string, sourceVM: string, baseImageID: string, kernelID: string, disk: Data)

  function ManifestOf(s: Snapshot): Manifest {
    Manifest(FORMAT, s.name, s.sourceVM, s.baseImageID, s.kernelID, DISK, |s.disk|)
  }

  /** `ExportSnapshot`: the entries it writes. */
  function Export(show: Manifest -> Data, s: Snapshot): seq<Entry> {
    [Entry(MANIFEST, Regular, show(ManifestOf(s))), Entry(DISK, Regular, s.disk)]
  }

  /** `ImportSnapshot` under a name, next to the snapshots there are. */
  method ImportSnapshot(parse: Parser, name: string, taken: set<string>, es: seq<Entry>) returns (r: Result<Snapshot>)
    ensures r.Ok? <==> name != "" && name !in taken && Acceptable(parse, es)
    ensures r.Ok? ==> var m := parse(Named(es, MANIFEST)[0].data);
      m.Some? && r.value == Snapshot(name, m.value.sourceVM, m.value.baseImageID, m.value.kernelID, Named(es, DISK)[0].data)
  {
    if name == "" || name in taken {
      return Err;
    }
    var u := UnpackSnapshotBundle(parse, es);
    if u.Err? {
      return Err;
    }
    var m := u.value.manifest;
    return Ok(Snapshot(name, m.sourceVM, m.baseImageID, m.kernelID, u.value.disk));
  }

  lemma PlainName(name: string)
    requires '/' !in name && name != "" && name != "." && name != ".."
    ensures CleanName(name) == Ok([name])
  {
    SplitNone(name, '/');
    assert name[0] in name;
    var parts := [name];
    assert parts[..0] == [] && Cleaned(parts) == Push([], name) == [] + [name] == parts;
  }

  lemma TwoFiles(m: Entry, d: Entry, a: string, b: string)
    requires IsFile(m, a) && IsFile(d, b) && a != b
    ensures Named([m, d], a) == [m] && Named([m, d], b) == [d]
  {
    assert [m, d] == ([] + [m]) + [d];
    NamedMore([], m, a);
    NamedMore([] + [m], d, a);
    NamedMore([], m, b);
    NamedMore([] + [m], d, b);
  }

  lemma FileNames()
    ensures MANIFEST != DISK && CleanName(MANIFEST) == Ok([MANIFEST]) && CleanName(DISK) == Ok([DISK])
  {
    assert |MANIFEST| == 13 && |DISK| == 11;
    PlainName(MANIFEST);
    PlainName(DISK);
  }

  lemma ExportNamed(show: Manifest -> Data, s: Snapshot)
    ensures var es := Export(show, s);
      && Named(es, MANIFEST) == [es[0]] && Named(es, DISK) == [es[1]]
      && (forall e :: e in es ==> EntryOk(e))
      && es[0].data == show(ManifestOf(s)) && es[1].data == s.disk
  {
    var es := Export(show, s);
    FileNames();
    FileEntry(es[0], MANIFEST);
    FileEntry(es[1], DISK);
    TwoFiles(es[0], es[1], MANIFEST, DISK);
  }

  lemma FileEntry(e: Entry, name: string)
    requires IsFile(e, name) && (name == MANIFEST || name == DISK)
    ensures EntryOk(e)
  {
    CleanNameSafe(e.name);
  }

  /**
  An exported snapshot is accepted again exactly when its manifest is within the size limit,
  provided that the parser reads back what the printer wrote.
  */
  lemma ExportAcceptable(show: Manifest -> Data, parse: Parser, s: Snapshot)
    requires parse(show(ManifestOf(s))) == Some(ManifestOf(s))
    ensures Acceptable(parse, Export(show, s)) <==> |show(ManifestOf(s))| <= MANIFEST_LIMIT
  {
    ExportNamed(show, s);
  }

  /** It comes back with the same disk, source VM and image ids, under the name it is imported by. */
  method ExportImport(show: Manifest -> Data, parse: Parser, s: Snapshot, name: string, taken: set<string>)
    returns (r: Result<Snapshot>)
    requires parse(show(ManifestOf(s))) == Some(ManifestOf(s))
    ensures r.Ok? <==> name != "" && name !in taken && |show(ManifestOf(s))| <= MANIFEST_LIMIT
    ensures r.Ok? ==> r.value == s.(name := name)
  {
    ExportAcceptable(show, parse, s);
    ExportNamed(show, s);
    r := ImportSnapshot(parse, name, taken, Export(show, s));
  }
}
