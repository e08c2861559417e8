/** Steps of processes, guests, other requests and the outside world keep the invariant. */
module EnvSteps {
  import opened Options
  import opened OpTable
  import opened World
  import opened Invariant
  import opened Frames
  import opened TableSteps

  /** A view that differs only in the row's state, or is quieter, serves an actor as well. */
  ghost predicate AsGood(v: View, v': View) {
    && v' == v.(row := v'.row, quiet := v'.quiet)
    && (v.quiet ==> v'.quiet)
    && v.row.Some? == v'.row.Some?
    && (v.row.Some? ==> v'.row.value.archived == v.row.value.archived)
  }

  lemma ViewWeaken(v: View, v': View, a: Actor)
    requires ViewOk(v, a) && AsGood(v, v')
    ensures ViewOk(v', a)
  {
  }

  /** No operation is alone with a VM that has a process. */
  lemma ViewBusy(v: View, v': View, a: Actor)
    requires ViewOk(v, a) && !v.quiet && v'.row == v.row
    ensures ViewOk(v', a)
  {
  }

  // ---------------------------------------------------------------- processes come and go

  /** Nothing but processes, reapers and the `running` map has changed, and only by losing entries. */
  ghost predicate Fewer(s: State, s': State) {
    && s' == s.(procs := s'.procs, reapers := s'.reapers, t := s.t.(running := s'.t.running))
    && (forall u :: u in s'.t.running ==> u in s.t.running)
    && (forall pid :: pid in s'.procs ==> pid in s.procs && s'.procs[pid] == s.procs[pid])
    && (forall pid :: pid in s'.reapers ==> pid in s.reapers)
  }

  lemma FewerPc(s: State, s': State, a: Actor)
    requires PcOk(s, a) && Fewer(s, s')
    ensures PcOk(s', a)
  {
    ViewWeaken(ViewOf(s, a), ViewOf(s', a), a);
  }

  lemma FewerStep(s: State, s': State)
    requires Inv(s) && Fewer(s, s') && Reapers(s') && ProcsOk(s')
    ensures Inv(s')
  {
    forall u | u in s'.disk ensures DiskOk(s', u) {
      assert DiskOk(s, u);
    }
    forall id | id in s'.actors ensures PcOk(s', s'.actors[id]) {
      PcAt(s, id);
      FewerPc(s, s', s.actors[id]);
    }
  }

  lemma ExitKeeps(s: State, pid: nat)
    requires Inv(s) && pid in s.procs
    ensures Inv(s.(procs := s.procs - {pid}))
  {
    var s' := s.(procs := s.procs - {pid});
    forall p | p in s'.procs ensures ProcOk(s', p) {
      assert ProcOk(s, p);
    }
    FewerStep(s, s');
  }

  lemma SeeExitKeeps(s: State, pid: nat)
    requires Inv(s) && pid in s.reapers && pid !in s.procs
    ensures Inv(SeeExit(s, pid))
  {
    var s' := SeeExit(s, pid);
    forall p | p in s'.procs ensures ProcOk(s', p) {
      assert ProcOk(s, p);
    }
    FewerStep(s, s');
  }

  /** The reaper deletes by UUID, and the entry it deletes is its own. */
  lemma DropEntryKeeps(s: State, pid: nat)
    requires Inv(s) && pid in s.reapers && pid !in s.procs
    ensures Inv(DropEntry(s, pid))
  {
    var s' := DropEntry(s, pid);
    forall p | p in s'.procs ensures ProcOk(s', p) {
      assert ProcOk(s, p);
    }
    FewerStep(s, s');
  }

  // ---------------------------------------------------------------- guest writes

  lemma WriteDir(s: State, pid: nat, data: Content, n: string)
    requires pid in s.procs && s.procs[pid].name != n
    ensures DirSame(s.fs, GuestWriteStep(s, pid, data).fs, n)
  {
  }

  lemma WritePc(s: State, pid: nat, data: Content, a: Actor)
    requires PcOk(s, a) && pid in s.procs && ProcOk(s, pid)
    ensures PcOk(GuestWriteStep(s, pid, data), a)
  {
    var s' := GuestWriteStep(s, pid, data);
    if a.u == s.procs[pid].u {
      ViewBusy(ViewOf(s, a), ViewOf(s', a), a);
    } else {
      assert Quiet(s', a.u) == Quiet(s, a.u);
      if a.hasRow {
        WriteDir(s, pid, data, a.row.name);
      }
      PcFrame(s, s', a);
    }
  }

  lemma WriteDisks(s: State, pid: nat, data: Content)
    requires DisksOk(s) && Rows(s) && SnapsOk(s) && pid in s.procs && ProcOk(s, pid)
    ensures DisksOk(GuestWriteStep(s, pid, data)) && SnapsOk(GuestWriteStep(s, pid, data))
  {
    var s' := GuestWriteStep(s, pid, data);
    forall u | u in s'.disk && u != s.procs[pid].u ensures DiskOk(s', u) {
      assert DiskOk(s, u);
      WriteDir(s, pid, data, s.rows[u].name);
      DiskFrame(s, s', u);
    }
  }

  lemma WriteActors(s: State, pid: nat, data: Content)
    requires PcsOk(s) && pid in s.procs && ProcOk(s, pid)
    ensures PcsOk(GuestWriteStep(s, pid, data))
  {
    forall id | id in s.actors ensures PcOk(GuestWriteStep(s, pid, data), s.actors[id]) {
      WritePc(s, pid, data, s.actors[id]);
    }
  }

  lemma WriteProcs(s: State, pid: nat, data: Content)
    requires ProcsOk(s) && pid in s.procs
    ensures ProcsOk(GuestWriteStep(s, pid, data))
  {
    forall p | p in s.procs ensures ProcOk(GuestWriteStep(s, pid, data), p) {
      assert ProcOk(s, p);
    }
  }

  lemma GuestWriteKeeps(s: State, pid: nat, data: Content)
    requires Inv(s) && pid in s.procs && s.procs[pid].attached
    ensures Inv(GuestWriteStep(s, pid, data))
  {
    assert ProcOk(s, pid);
    WriteDisks(s, pid, data);
    WriteProcs(s, pid, data);
    WriteActors(s, pid, data);
  }

  // ---------------------------------------------------------------- rows

  lemma SetStatePc(s: State, u: Uuid, state: string, a: Actor)
    requires PcOk(s, a) && u in s.rows
    ensures PcOk(SetStateStep(s, u, state), a)
  {
    var s' := SetStateStep(s, u, state);
    assert Quiet(s', a.u) == Quiet(s, a.u);
    assert a.hasRow ==> RowOk(s', a.u, a.row);
    ViewWeaken(ViewOf(s, a), ViewOf(s', a), a);
  }

  lemma SetStateRest(s: State, u: Uuid, state: string)
    requires u in s.rows && Rows(s) && ProcsOk(s) && DisksOk(s)
    ensures var s' := SetStateStep(s, u, state); Rows(s') && ProcsOk(s') && DisksOk(s')
  {
    var s' := SetStateStep(s, u, state);
    forall p | p in s'.procs ensures ProcOk(s', p) {
      assert ProcOk(s, p);
    }
    forall v | v in s'.disk ensures DiskOk(s', v) {
      assert DiskOk(s, v);
    }
  }

  lemma SetStateKeeps(s: State, u: Uuid, state: string)
    requires Inv(s) && u in s.rows
    ensures Inv(SetStateStep(s, u, state))
  {
    SetStateRest(s, u, state);
    forall id | id in s.actors ensures PcOk(SetStateStep(s, u, state), s.actors[id]) {
      PcAt(s, id);
      SetStatePc(s, u, state, s.actors[id]);
    }
  }

  ghost predicate NewName(s: State, u: Uuid, name: string) {
    && Fresh(s, u)
    && (forall v :: v in s.rows ==> s.rows[v].name != name)
    && (forall id :: id in s.actors && s.actors[id].hasRow ==> s.actors[id].row.name != name)
  }

  lemma CreateDir(s: State, u: Uuid, name: string, image: Option<Content>, n: string)
    requires n != name
    ensures DirSame(s.fs, CreateStep(s, u, name, image).fs, n)
  {
  }

  lemma CreateSame(s: State, u: Uuid, name: string, image: Option<Content>, a: Actor)
    requires a.u != u && (a.hasRow ==> a.row.name != name)
    ensures SameFor(s, CreateStep(s, u, name, image), a)
  {
    var s' := CreateStep(s, u, name, image);
    if a.hasRow {
      CreateDir(s, u, name, image, a.row.name);
    }
    assert Quiet(s', a.u) == Quiet(s, a.u);
  }

  lemma CreatePc(s: State, u: Uuid, name: string, image: Option<Content>, a: Actor)
    requires PcOk(s, a) && a.u != u && (a.hasRow ==> a.row.name != name)
    ensures PcOk(CreateStep(s, u, name, image), a)
  {
    CreateSame(s, u, name, image, a);
    PcFrame(s, CreateStep(s, u, name, image), a);
  }

  lemma CreateDisks(s: State, u: Uuid, name: string, image: Option<Content>)
    requires NewName(s, u, name) && DisksOk(s) && Rows(s) && SnapsOk(s)
    ensures var s' := CreateStep(s, u, name, image); DisksOk(s') && SnapsOk(s') && Rows(s')
  {
    var s' := CreateStep(s, u, name, image);
    forall v | v in s'.disk && v != u ensures DiskOk(s', v) {
      assert DiskOk(s, v);
      CreateDir(s, u, name, image, s.rows[v].name);
      DiskFrame(s, s', v);
    }
  }

  lemma CreateProcs(s: State, u: Uuid, name: string, image: Option<Content>)
    requires NewName(s, u, name) && ProcsOk(s)
    ensures ProcsOk(CreateStep(s, u, name, image))
  {
    var s' := CreateStep(s, u, name, image);
    forall p | p in s'.procs ensures ProcOk(s', p) {
      assert ProcOk(s, p);
    }
  }

  lemma CreateActors(s: State, u: Uuid, name: string, image: Option<Content>)
    requires PcsOk(s) && NewName(s, u, name)
    ensures PcsOk(CreateStep(s, u, name, image))
  {
    forall id | id in s.actors ensures PcOk(CreateStep(s, u, name, image), s.actors[id]) {
      CreatePc(s, u, name, image, s.actors[id]);
    }
  }

  lemma CreateKeeps(s: State, u: Uuid, name: string, image: Option<Content>)
    requires Inv(s) && NewName(s, u, name)
    ensures Inv(CreateStep(s, u, name, image))
  {
    CreateDisks(s, u, name, image);
    CreateProcs(s, u, name, image);
    CreateActors(s, u, name, image);
  }

  // ---------------------------------------------------------------- requests and crashes

  lemma SpawnPc(s: State, kind: Kind, u: Uuid, sn: string)
    ensures PcOk(SpawnStep(s, Request(kind, u, sn)), Request(kind, u, sn))
  {
  }

  lemma SpawnOther(s: State, a: Actor, b: Actor)
    requires PcOk(s, b) && s.nextId !in s.actors
    ensures PcOk(SpawnStep(s, a), b)
  {
    var s' := SpawnStep(s, a);
    assert Quiet(s', b.u) == Quiet(s, b.u);
    PcFrame(s, s', b);
  }

  lemma SpawnTable(s: State, a: Actor)
    requires Tokens(s) && Ids(s) && Reapers(s) && Rows(s) && Names(s) && !a.held && !a.hasRow && !Writing(a)
    requires !a.pc.Register?
    ensures var s' := SpawnStep(s, a); Tokens(s') && Ids(s') && Reapers(s') && Rows(s') && Names(s')
  {
  }

  lemma SpawnActors(s: State, a: Actor)
    requires PcsOk(s) && s.nextId !in s.actors && PcOk(SpawnStep(s, a), a)
    ensures PcsOk(SpawnStep(s, a))
  {
    forall id | id in s.actors ensures PcOk(SpawnStep(s, a), s.actors[id]) {
      SpawnOther(s, a, s.actors[id]);
    }
  }

  lemma SpawnRest(s: State, a: Actor)
    requires ProcsOk(s) && DisksOk(s) && Tokens(s) && s.nextId !in s.actors
    ensures ProcsOk(SpawnStep(s, a)) && DisksOk(SpawnStep(s, a))
  {
    var s' := SpawnStep(s, a);
    forall p | p in s'.procs ensures ProcOk(s', p) {
      assert ProcOk(s, p);
    }
    forall v | v in s'.disk ensures DiskOk(s', v) {
      assert DiskOk(s, v);
    }
  }

  lemma SpawnKeeps(s: State, kind: Kind, u: Uuid, sn: string)
    requires Inv(s)
    ensures Inv(SpawnStep(s, Request(kind, u, sn)))
  {
    SpawnTable(s, Request(kind, u, sn));
    SpawnPc(s, kind, u, sn);
    SpawnRest(s, Request(kind, u, sn));
    SpawnActors(s, Request(kind, u, sn));
  }

  lemma CrashKeeps(s: State)
    requires Inv(s)
    ensures Inv(CrashStep(s))
  {
    forall u | u in s.disk ensures DiskOk(CrashStep(s), u) {
      assert DiskOk(s, u);
    }
  }
}
