/**
Non-interference: what one operation relies on is untouched by a step of another.
`HolderStep` covers every step that an operation takes inside its own VM, so the
proof for each program counter only has to look at that VM.
*/
module Frames {
  import opened Options
  import opened OpTable
  import opened World
  import opened Invariant

  predicate FsSame(fs: Files, fs': Files, p: Path) {
    (p in fs <==> p in fs') && (p in fs ==> fs[p] == fs'[p])
  }

  ghost predicate DirSame(fs: Files, fs': Files, n: string) {
    forall p :: Under(p, n) ==> FsSame(fs, fs', p)
  }

  /** Everything `PcOk` reads for a holder is the same in both states. */
  ghost predicate SameFor(s: State, s': State, a: Actor) {
    && s'.cfg == s.cfg
    && Look(s.rows, a.u) == Look(s'.rows, a.u)
    && Look(s.disk, a.u) == Look(s'.disk, a.u)
    && Quiet(s, a.u) == Quiet(s', a.u)
    && (LaunchOk(s, a) ==> LaunchOk(s', a))
    && (a.hasRow ==> DirSame(s.fs, s'.fs, a.row.name))
    && (Writing(a) ==> FsSame(s.fs, s'.fs, Snap(a.sn)))
  }

  /** The facts an actor has while it waits, and the ones about other rows and snapshots. */
  ghost predicate KeptFor(s: State, s': State, a: Actor) {
    && s'.cfg == s.cfg
    && (a.hasRow ==> RowOk(s', a.u, a.row))
    && (a.pc.Wait? ==> WaitOk(s', a.u, a.arch))
    && (Writing(a) ==> a.sn !in s'.snaps)
  }

  lemma GoneFrame(fs: Files, fs': Files, n: string)
    requires DirSame(fs, fs', n)
    ensures HotGone(fs, n) == HotGone(fs', n) && AllGone(fs, n) == AllGone(fs', n)
  {
    forall p | Under(p, n) ensures p in fs <==> p in fs' {
      assert FsSame(fs, fs', p);
    }
  }

  lemma ViewFrame(s: State, s': State, a: Actor)
    requires SameFor(s, s', a) && a.hasRow
    ensures ViewOf(s', a) == ViewOf(s, a) && GoneOk(s.cfg.coldOn, s'.fs, a) == GoneOk(s.cfg.coldOn, s.fs, a)
  {
    var n := a.row.name;
    GoneFrame(s.fs, s'.fs, n);
    assert FsSame(s.fs, s'.fs, Hot(n)) && FsSame(s.fs, s'.fs, Cold(n));
    assert FsSame(s.fs, s'.fs, HotTmp(n, a.k)) && FsSame(s.fs, s'.fs, ColdTmp(n, a.k));
  }

  lemma PcFrame(s: State, s': State, a: Actor)
    requires PcOk(s, a) && KeptFor(s, s', a)
    requires a.held ==> SameFor(s, s', a)
    ensures PcOk(s', a)
  {
    if a.held && a.hasRow {
      ViewFrame(s, s', a);
    }
  }

  /** Another VM's disk is untouched by a step that stays in one VM's directories. */
  lemma DiskFrame(s: State, s': State, u: Uuid)
    requires u in s.disk && DiskOk(s, u) && Rows(s)
    requires u in s'.disk && s'.disk[u] == s.disk[u]
    requires u in s'.rows && s'.rows[u].name == s.rows[u].name && s'.rows[u].archived == s.rows[u].archived
    requires DirSame(s.fs, s'.fs, s.rows[u].name)
    ensures DiskOk(s', u)
  {
    assert FsSame(s.fs, s'.fs, Hot(s.rows[u].name)) && FsSame(s.fs, s'.fs, Cold(s.rows[u].name));
  }

  // ---------------------------------------------------------------- a holder's own step

  /** The actor stays the holder, in the same VM and with the same row and snapshot name. */
  predicate SameJob(a: Actor, a': Actor) {
    && a.held && a'.held && a'.u == a.u && a'.kind == a.kind && a'.sn == a.sn && a'.row == a.row
    && (a'.hasRow ==> a.hasRow)
  }

  /** A path of the VM, or the snapshot that the save has open. */
  predicate OwnPath(a: Actor, open: bool, p: Path) {
    Under(p, a.row.name) || (open && p == Snap(a.sn))
  }

  /** The file operation stays in the VM's directories or in the save's own snapshot. */
  predicate OwnFile(a: Actor, open: bool, op: FileOp) {
    match op
    case NoFile => true
    case Write(p, _) => OwnPath(a, open, p)
    case Remove(p) => OwnPath(a, open, p)
    case Rename(from, to) => OwnPath(a, open, from) && OwnPath(a, open, to)
    case RemoveHotDir(n) => n == a.row.name
    case RemoveColdDir(n) => n == a.row.name
  }

  lemma OwnFileFrame(fs: Files, op: FileOp, a: Actor, open: bool, p: Path)
    requires OwnFile(a, open, op) && !OwnPath(a, open, p)
    ensures FsSame(fs, OnFiles(fs, op), p)
  {
  }

  lemma OwnFileDir(fs: Files, op: FileOp, a: Actor, open: bool, n: string)
    requires OwnFile(a, open, op) && a.row.name != n
    ensures DirSame(fs, OnFiles(fs, op), n)
  {
    forall p | Under(p, n) ensures FsSame(fs, OnFiles(fs, op), p) {
      OwnFileFrame(fs, op, a, open, p);
    }
  }

  /** A disk as its VM's holder sees it: the hot copy counts, otherwise the recorded archive. */
  predicate DiskSeen(v: View, n: string) {
    v.disk.Some? ==>
      v.row.Some? && if v.hot.Some? then v.hot == v.disk else v.row.value.archived == Some(Cold(n)) && v.cold == v.disk
  }

  /** What a holder knows about its own VM. */
  ghost predicate Knows(s: State, a: Actor) {
    && LocalsOk(a) && a.held && a.hasRow && RowShape(s.cfg, a.row)
    && (IsArchive(a) ==> s.cfg.coldOn)
    && GoneOk(s.cfg.coldOn, s.fs, a)
    && ViewOk(ViewOf(s, a), a) && DiskSeen(ViewOf(s, a), a.row.name)
  }

  /** The holder's view after a step. */
  ghost function After(s: State, e: Effect): View {
    Sees(if e.archived.Some? then Record(s.rows, e.a.u, e.archived.value) else s.rows,
         OnDisk(s.disk, e.a.u, e.disk), OnFiles(s.fs, e.file), Quiet(s, e.a.u), e.a)
  }

  predicate Working(pc: Pc) {
    !pc.SnapExists? && !pc.End? && !pc.Register?
  }

  /** The save has its snapshot open before or after the step. */
  predicate Open(a: Actor, e: Effect) {
    Writing(a) || Writing(e.a)
  }

  /** If the step opens a snapshot, it may. */
  predicate Opens(s: State, id: nat, e: Effect)
    requires id in s.actors
  {
    Writing(e.a) && !Writing(s.actors[id]) ==> MayOpen(s, id)
  }

  /** A step that stays inside the VM. */
  ghost predicate Contained(s: State, a: Actor, e: Effect) {
    && SameJob(a, e.a) && OwnFile(a, Open(a, e), e.file)
    && (e.archived.Some? ==> RowShape(s.cfg, a.row.(archived := e.archived.value)))
    && (Quiet(s, a.u) || e == Goto(e.a))
  }

  /** The holder knows enough to go on. */
  ghost predicate Ready(s: State, e: Effect) {
    && LocalsOk(e.a) && !e.a.pc.Register? && !e.a.pc.Settle?
    && GoneOk(s.cfg.coldOn, OnFiles(s.fs, e.file), e.a)
    && ViewOk(After(s, e), e.a) && DiskSeen(After(s, e), e.a.row.name)
  }

  lemma DiskIsSeen(s: State, a: Actor)
    requires a.hasRow && RowOk(s, a.u, a.row) && Rows(s)
    ensures (a.u in s.disk ==> DiskOk(s, a.u)) <==> DiskSeen(ViewOf(s, a), a.row.name)
  {
    assert a.u in s.rows ==> RowShape(s.cfg, s.rows[a.u]);
  }

  /** This actor's facts, as one fact; the quantifier hides them from the solver until they are needed. */
  ghost predicate SelfOk(s: State, id: nat) {
    forall i :: i in s.actors && i == id ==> PcOk(s, s.actors[i])
  }

  lemma PcAt(s: State, id: nat)
    requires Inv(s) && id in s.actors
    ensures PcOk(s, s.actors[id])
  {
  }

  lemma HolderKnows(s: State, id: nat)
    requires Inv(s) && id in s.actors && s.actors[id].held && s.actors[id].hasRow
    ensures Knows(s, s.actors[id])
  {
    PcAt(s, id);
    assert s.actors[id].u in s.disk ==> DiskOk(s, s.actors[id].u);
    DiskIsSeen(s, s.actors[id]);
  }

  lemma StepRows(s: State, id: nat, e: Effect)
    requires id in s.actors && RowOk(s, s.actors[id].u, s.actors[id].row) && Rows(s) && Contained(s, s.actors[id], e)
    ensures Rows(Perform(s, id, e))
    ensures forall v, row :: RowOk(s, v, row) ==> RowOk(Perform(s, id, e), v, row)
  {
    var s' := Perform(s, id, e);
    assert s'.rows.Keys == s.rows.Keys;
    assert forall v :: v in s.rows ==> s'.rows[v].name == s.rows[v].name;
  }

  lemma StepTable(s: State, id: nat, e: Effect)
    requires id in s.actors && Tokens(s) && Ids(s) && Reapers(s) && Contained(s, s.actors[id], e)
    ensures Tokens(Perform(s, id, e)) && Ids(Perform(s, id, e)) && Reapers(Perform(s, id, e))
  {
  }

  lemma StepNames(s: State, id: nat, e: Effect)
    requires id in s.actors && s.actors[id].hasRow && Names(s) && Contained(s, s.actors[id], e)
    requires !e.a.pc.Register? && Opens(s, id, e)
    ensures Names(Perform(s, id, e))
  {
    var a := s.actors[id];
    forall i | i in s.actors && i != id
      ensures OneVm(e.a, s.actors[i]) && OneVm(s.actors[i], e.a) && !Clash(e.a, s.actors[i]) && !Clash(s.actors[i], e.a)
    {
      assert OneVm(a, s.actors[i]);
      assert !Clash(a, s.actors[i]);
    }
  }

  lemma StepSnaps(s: State, id: nat, e: Effect)
    requires id in s.actors && SnapsOk(s) && Contained(s, s.actors[id], e) && Opens(s, id, e)
    requires Writing(s.actors[id]) ==> s.actors[id].sn !in s.snaps
    ensures SnapsOk(Perform(s, id, e))
  {
    forall sn | sn in s.snaps ensures FsSame(s.fs, OnFiles(s.fs, e.file), Snap(sn)) {
      OwnFileFrame(s.fs, e.file, s.actors[id], Open(s.actors[id], e), Snap(sn));
    }
  }

  lemma StepOtherDisk(s: State, id: nat, e: Effect, u: Uuid)
    requires id in s.actors && Rows(s) && Contained(s, s.actors[id], e)
    requires RowOk(s, s.actors[id].u, s.actors[id].row) && u in s.disk && DiskOk(s, u) && u != s.actors[id].u
    ensures DiskOk(Perform(s, id, e), u)
  {
    OwnFileDir(s.fs, e.file, s.actors[id], Open(s.actors[id], e), s.rows[u].name);
    DiskFrame(s, Perform(s, id, e), u);
  }

  lemma StepDisks(s: State, id: nat, e: Effect)
    requires id in s.actors && s.actors[id].hasRow && Rows(s) && Contained(s, s.actors[id], e)
    requires RowOk(s, s.actors[id].u, s.actors[id].row) && DisksOk(s) && DiskSeen(After(s, e), e.a.row.name)
    ensures DisksOk(Perform(s, id, e))
  {
    var a, s' := s.actors[id], Perform(s, id, e);
    StepRows(s, id, e);
    DiskIsSeen(s', a);
    forall u | u in s'.disk && u != a.u ensures DiskOk(s', u) {
      assert DiskOk(s, u);
      StepOtherDisk(s, id, e, u);
    }
  }

  lemma StepProcs(s: State, id: nat, e: Effect)
    requires id in s.actors && s.actors[id].hasRow && Contained(s, s.actors[id], e)
    requires RowOk(s, s.actors[id].u, s.actors[id].row) && ProcsOk(s)
    requires Working(s.actors[id].pc)
    ensures ProcsOk(Perform(s, id, e))
  {
    var a, s' := s.actors[id], Perform(s, id, e);
    forall pid | pid in s.procs ensures ProcOk(s', pid) {
      assert ProcOk(s, pid);
      if s.procs[pid].u != a.u {
        OwnFileFrame(s.fs, e.file, a, Open(a, e), Hot(s.procs[pid].name));
      }
    }
  }

  lemma StepSame(s: State, id: nat, e: Effect, b: Actor)
    requires id in s.actors && Contained(s, s.actors[id], e)
    requires b.u != s.actors[id].u && OneVm(s.actors[id], b) && s.actors[id].hasRow
    requires Open(s.actors[id], e) && Writing(b) ==> b.sn != s.actors[id].sn
    ensures SameFor(s, Perform(s, id, e), b)
  {
    var a, s' := s.actors[id], Perform(s, id, e);
    if b.hasRow {
      OwnFileDir(s.fs, e.file, a, Open(a, e), b.row.name);
    }
    if Writing(b) {
      OwnFileFrame(s.fs, e.file, a, Open(a, e), Snap(b.sn));
    }
    assert Quiet(s', b.u) == Quiet(s, b.u);
  }

  lemma StepKept(s: State, id: nat, e: Effect, i: nat)
    requires id in s.actors && Contained(s, s.actors[id], e) && Rows(s)
    requires RowOk(s, s.actors[id].u, s.actors[id].row)
    requires i in s.actors && PcOk(s, s.actors[i])
    ensures KeptFor(s, Perform(s, id, e), s.actors[i])
  {
    StepRows(s, id, e);
  }

  lemma StepSelf(s: State, id: nat, e: Effect)
    requires id in s.actors && s.actors[id].hasRow && Contained(s, s.actors[id], e) && Ready(s, e) && Rows(s)
    requires PcOk(s, s.actors[id]) && Working(s.actors[id].pc) && Opens(s, id, e)
    ensures PcOk(Perform(s, id, e), e.a)
  {
    StepRows(s, id, e);
  }

  /** The conditions under which a holder's step cannot disturb another operation. */
  ghost predicate Apart(s: State, id: nat, e: Effect) {
    && id in s.actors && s.actors[id].hasRow && Contained(s, s.actors[id], e)
    && Tokens(s) && Names(s) && Rows(s) && RowOk(s, s.actors[id].u, s.actors[id].row) && Opens(s, id, e)
  }

  lemma StepOther(s: State, id: nat, e: Effect, i: nat)
    requires Apart(s, id, e) && i in s.actors && i != id && PcOk(s, s.actors[i])
    ensures PcOk(Perform(s, id, e), s.actors[i])
  {
    var b := s.actors[i];
    StepKept(s, id, e, i);
    if b.held {
      assert OneVm(s.actors[id], b);
      assert !Clash(s.actors[id], b);
      StepSame(s, id, e, b);
    }
    PcFrame(s, Perform(s, id, e), b);
  }

  lemma StepActors(s: State, id: nat, e: Effect)
    requires Apart(s, id, e) && PcsOk(s) && PcOk(Perform(s, id, e), e.a)
    ensures PcsOk(Perform(s, id, e))
  {
    var s' := Perform(s, id, e);
    forall i | i in s'.actors && i != id ensures PcOk(s', s.actors[i]) {
      StepOther(s, id, e, i);
    }
  }

  /** The holder of a VM's token takes a step inside its VM. */
  lemma HolderStep(s: State, id: nat, e: Effect)
    requires Inv(s) && id in s.actors && Contained(s, s.actors[id], e) && Ready(s, e)
    requires s.actors[id].hasRow && Working(s.actors[id].pc) && Opens(s, id, e)
    ensures Inv(Perform(s, id, e))
  {
    PcAt(s, id);
    StepRows(s, id, e);
    StepTable(s, id, e);
    StepNames(s, id, e);
    StepSnaps(s, id, e);
    StepDisks(s, id, e);
    StepProcs(s, id, e);
    StepSelf(s, id, e);
    StepActors(s, id, e);
  }
}
