/** Launching and registering a process, deleting a row and recording a snapshot keep the invariant. */
module LaunchSteps {
  import opened Options
  import opened OpTable
  import opened World
  import opened Invariant
  import opened Frames

  /** Only this operation differs, and it goes on with the same job. */
  ghost predicate OneActor(s: State, s': State, id: nat) {
    id in s.actors && id in s'.actors && s'.actors == s.actors[id := s'.actors[id]] && SameJob(s.actors[id], s'.actors[id])
  }

  lemma KeptTokens(s: State, s': State, id: nat)
    requires OneActor(s, s', id) && Tokens(s) && s'.t == s.t.(running := s'.t.running)
    ensures Tokens(s')
  {
  }

  lemma KeptNames(s: State, s': State, id: nat)
    requires OneActor(s, s', id) && Names(s) && !Writing(s'.actors[id])
    requires s'.actors[id].pc.Register? ==>
      forall i :: i in s.actors && s.actors[i].pc.Register? ==> s.actors[i].pid != s'.actors[id].pid
    ensures Names(s')
  {
    var a, a' := s.actors[id], s'.actors[id];
    forall i | i in s.actors && i != id
      ensures OneVm(a', s.actors[i]) && OneVm(s.actors[i], a') && !Clash(a', s.actors[i]) && !Clash(s.actors[i], a')
    {
      assert OneVm(a, s.actors[i]);
      assert !Clash(a, s.actors[i]);
    }
  }

  lemma KeptWait(s: State, s': State, id: nat, u: Uuid, arch: nat)
    requires OneActor(s, s', id) && s'.t.closed == s.t.closed && WaitOk(s, u, arch)
    ensures WaitOk(s', u, arch)
  {
  }

  /** Rows, files, disks and snapshots are as they were. */
  lemma DataKept(s: State, s': State)
    requires Rows(s) && DisksOk(s) && SnapsOk(s)
    requires s'.cfg == s.cfg && s'.rows == s.rows && s'.fs == s.fs && s'.disk == s.disk && s'.snaps == s.snaps
    ensures Rows(s') && DisksOk(s') && SnapsOk(s')
  {
    forall u | u in s'.disk ensures DiskOk(s', u) {
      assert DiskOk(s, u);
    }
  }

  /** A process of another VM makes no difference. */
  lemma QuietElsewhere(s: State, s': State, pid: nat, u: Uuid)
    requires pid in s'.procs && s'.procs == s.procs[pid := s'.procs[pid]] && s'.procs[pid].u != u
    requires pid in s.procs ==> s.procs[pid].u != u
    requires u in s.t.running <==> u in s'.t.running
    ensures Quiet(s, u) == Quiet(s', u)
  {
    forall p | p in s'.procs && s'.procs[p].u == u ensures p in s.procs && s.procs[p].u == u {
    }
    forall p | p in s.procs && s.procs[p].u == u ensures p in s'.procs && s'.procs[p].u == u {
    }
  }

  // ---------------------------------------------------------------- cmd.Start

  lemma LaunchOther(s: State, id: nat, resume: bool, b: Actor)
    requires id in s.actors && s.actors[id].held && s.nextPid !in s.procs && PcOk(s, b)
    requires b.held ==> b.u != s.actors[id].u
    ensures PcOk(LaunchStep(s, id, s.actors[id], resume), b)
  {
    var s' := LaunchStep(s, id, s.actors[id], resume);
    if b.pc.Wait? {
      KeptWait(s, s', id, b.u, b.arch);
    }
    if b.held {
      QuietElsewhere(s, s', s.nextPid, b.u);
    }
    PcFrame(s, s', b);
  }

  lemma LaunchSelf(s: State, id: nat, resume: bool)
    requires id in s.actors && PcOk(s, s.actors[id]) && Ids(s)
    requires s.actors[id].pc == if resume then ResumeLaunch else Launch
    ensures var s' := LaunchStep(s, id, s.actors[id], resume); PcOk(s', s'.actors[id])
  {
  }

  lemma LaunchOthers(s: State, id: nat, resume: bool, i: nat)
    requires Tokens(s) && Ids(s) && PcsOk(s) && i in s.actors && i != id
    requires id in s.actors && s.actors[id].pc == if resume then ResumeLaunch else Launch
    ensures PcOk(LaunchStep(s, id, s.actors[id], resume), s.actors[i])
  {
    assert PcOk(s, s.actors[id]) && PcOk(s, s.actors[i]);
    LaunchOther(s, id, resume, s.actors[i]);
  }

  lemma LaunchActors(s: State, id: nat, resume: bool)
    requires Tokens(s) && Ids(s) && PcsOk(s)
    requires id in s.actors && s.actors[id].pc == if resume then ResumeLaunch else Launch
    ensures PcsOk(LaunchStep(s, id, s.actors[id], resume))
  {
    var s' := LaunchStep(s, id, s.actors[id], resume);
    assert PcOk(s, s.actors[id]);
    LaunchSelf(s, id, resume);
    forall i | i in s'.actors && i != id ensures PcOk(s', s'.actors[i]) {
      LaunchOthers(s, id, resume, i);
    }
  }

  lemma LaunchProcs(s: State, id: nat, resume: bool)
    requires Tokens(s) && ProcsOk(s)
    requires id in s.actors && s.actors[id].pc == (if resume then ResumeLaunch else Launch) && PcOk(s, s.actors[id])
    ensures ProcsOk(LaunchStep(s, id, s.actors[id], resume))
  {
    var a, s' := s.actors[id], LaunchStep(s, id, s.actors[id], resume);
    forall pid | pid in s.procs && pid != s.nextPid ensures ProcOk(s', pid) {
      assert ProcOk(s, pid);
      assert s.procs[pid].u != a.u;
    }
  }

  lemma LaunchNames(s: State, id: nat, resume: bool)
    requires Names(s) && PcsOk(s) && id in s.actors && s.actors[id].held
    ensures Names(LaunchStep(s, id, s.actors[id], resume))
  {
    forall i | i in s.actors && s.actors[i].pc.Register? ensures s.actors[i].pid != s.nextPid {
      assert PcOk(s, s.actors[i]);
    }
    KeptNames(s, LaunchStep(s, id, s.actors[id], resume), id);
  }

  lemma LaunchTable(s: State, id: nat, resume: bool)
    requires Tokens(s) && Ids(s) && Reapers(s) && id in s.actors && s.actors[id].held
    ensures var s' := LaunchStep(s, id, s.actors[id], resume); Tokens(s') && Ids(s') && Reapers(s')
  {
    KeptTokens(s, LaunchStep(s, id, s.actors[id], resume), id);
  }

  lemma LaunchKeeps(s: State, id: nat, resume: bool)
    requires Inv(s) && id in s.actors && s.actors[id].pc == if resume then ResumeLaunch else Launch
    ensures Inv(LaunchStep(s, id, s.actors[id], resume))
  {
    PcAt(s, id);
    LaunchTable(s, id, resume);
    DataKept(s, LaunchStep(s, id, s.actors[id], resume));
    LaunchNames(s, id, resume);
    LaunchProcs(s, id, resume);
    LaunchActors(s, id, resume);
  }

  /** The actor holds its token, and no other actor shares its VM, snapshot or process. */
  ghost predicate Beside(s: State, id: nat) {
    id in s.actors && s.actors[id].held && Tokens(s) && Names(s)
  }

  lemma EndOk(s: State, s': State, id: nat)
    requires id in s.actors && s.actors[id].held && SelfOk(s, id) && s'.cfg == s.cfg
    requires id in s'.actors && s'.actors[id] == Done(s.actors[id])
    ensures SelfOk(s', id)
  {
    assert PcOk(s, s.actors[id]);
  }

  /** Another actor: if it holds a token, it is another VM's. */
  ghost predicate OtherThan(a: Actor, b: Actor) {
    !Clash(a, b) && (b.held ==> b.u != a.u)
  }

  ghost predicate OthersOk(s: State, s': State, id: nat) {
    forall i :: i in s.actors && i != id ==> PcOk(s', s.actors[i])
  }

  lemma AllOk(s: State, s': State, id: nat)
    requires id in s'.actors && s'.actors == s.actors[id := s'.actors[id]] && OthersOk(s, s', id) && SelfOk(s', id)
    ensures PcsOk(s')
  {
  }

  lemma LaunchKnows(s: State, id: nat)
    requires PcsOk(s) && id in s.actors && (s.actors[id].pc.Register? || s.actors[id].pc.Settle?)
    ensures LaunchOk(s, s.actors[id]) && s.actors[id].held
  {
    assert PcOk(s, s.actors[id]);
  }

  lemma BesideOther(s: State, id: nat, i: nat)
    requires Beside(s, id) && i in s.actors && i != id
    ensures OtherThan(s.actors[id], s.actors[i])
  {
  }

  lemma DoneTokens(s: State, s': State, id: nat)
    requires Beside(s, id) && s'.actors == s.actors[id := Done(s.actors[id])] && s'.t == s.t
    ensures Tokens(s') && Names(s')
  {
    KeptTokens(s, s', id);
    KeptNames(s, s', id);
  }

  // ---------------------------------------------------------------- registering the process

  lemma RegisterOther(s: State, id: nat, b: Actor)
    requires id in s.actors && s.actors[id].held && s.actors[id].pc.Register? && LaunchOk(s, s.actors[id])
    requires PcOk(s, b) && OtherThan(s.actors[id], b)
    ensures PcOk(RegisterStep(s, id, s.actors[id]), b)
  {
    var s' := RegisterStep(s, id, s.actors[id]);
    if b.pc.Wait? {
      KeptWait(s, s', id, b.u, b.arch);
    }
    PcFrame(s, s', b);
  }

  lemma RegisterActors(s: State, id: nat)
    requires Beside(s, id) && s.actors[id].pc.Register? && PcsOk(s)
    ensures OthersOk(s, RegisterStep(s, id, s.actors[id]), id)
  {
    var s' := RegisterStep(s, id, s.actors[id]);
    LaunchKnows(s, id);
    forall i | i in s.actors && i != id ensures PcOk(s', s.actors[i]) {
      BesideOther(s, id, i);
      RegisterOther(s, id, s.actors[i]);
    }
  }

  lemma RegisterSelf(s: State, id: nat)
    requires id in s.actors && s.actors[id].pc.Register? && SelfOk(s, id)
    ensures SelfOk(RegisterStep(s, id, s.actors[id]), id)
  {
    assert PcOk(s, s.actors[id]);
  }

  lemma RegisterProcs(s: State, id: nat)
    requires Beside(s, id) && ProcsOk(s) && s.actors[id].pc.Register? && PcOk(s, s.actors[id])
    ensures ProcsOk(RegisterStep(s, id, s.actors[id]))
  {
    var s' := RegisterStep(s, id, s.actors[id]);
    forall pid | pid in s'.procs ensures ProcOk(s', pid) {
      assert ProcOk(s, pid);
    }
  }

  lemma RegisterTable(s: State, id: nat)
    requires Beside(s, id)
    ensures var s' := RegisterStep(s, id, s.actors[id]); Tokens(s') && Names(s')
  {
    KeptTokens(s, RegisterStep(s, id, s.actors[id]), id);
    KeptNames(s, RegisterStep(s, id, s.actors[id]), id);
  }

  lemma RegisterIds(s: State, id: nat)
    requires id in s.actors && Ids(s) && Reapers(s) && s.actors[id].pc.Register? && LaunchOk(s, s.actors[id])
    ensures var s' := RegisterStep(s, id, s.actors[id]); Ids(s') && Reapers(s')
  {
  }

  lemma RegisterPcs(s: State, id: nat)
    requires Beside(s, id) && PcsOk(s) && s.actors[id].pc.Register?
    ensures PcsOk(RegisterStep(s, id, s.actors[id]))
  {
    RegisterSelf(s, id);
    RegisterActors(s, id);
    AllOk(s, RegisterStep(s, id, s.actors[id]), id);
  }

  lemma RegisterKeeps(s: State, id: nat)
    requires Inv(s) && id in s.actors && s.actors[id].pc.Register?
    ensures Inv(RegisterStep(s, id, s.actors[id]))
  {
    PcAt(s, id);
    RegisterTable(s, id);
    RegisterIds(s, id);
    DataKept(s, RegisterStep(s, id, s.actors[id]));
    RegisterProcs(s, id);
    RegisterPcs(s, id);
  }

  // ---------------------------------------------------------------- loading a sleep snapshot

  lemma AttachOther(s: State, id: nat, b: Actor)
    requires id in s.actors && s.actors[id].held && s.actors[id].pc.Settle? && LaunchOk(s, s.actors[id])
    requires s.actors[id].pid in s.procs && Hot(s.actors[id].row.name) in s.fs
    requires PcOk(s, b) && OtherThan(s.actors[id], b)
    ensures PcOk(AttachStep(s, id, s.actors[id]), b)
  {
    var s' := AttachStep(s, id, s.actors[id]);
    if b.pc.Wait? {
      KeptWait(s, s', id, b.u, b.arch);
    }
    if b.held {
      QuietElsewhere(s, s', s.actors[id].pid, b.u);
    }
    PcFrame(s, s', b);
  }

  lemma DoneOther(s: State, id: nat, b: Actor)
    requires id in s.actors && s.actors[id].held && PcOk(s, b)
    ensures PcOk(Become(s, id, Done(s.actors[id])), b)
  {
    var s' := Become(s, id, Done(s.actors[id]));
    if b.pc.Wait? {
      KeptWait(s, s', id, b.u, b.arch);
    }
    assert Quiet(s', b.u) == Quiet(s, b.u);
    PcFrame(s, s', b);
  }

  lemma SettleOther(s: State, id: nat, b: Actor)
    requires id in s.actors && s.actors[id].held && s.actors[id].pc.Settle? && LaunchOk(s, s.actors[id])
    requires PcOk(s, b) && OtherThan(s.actors[id], b)
    ensures PcOk(SettleStep(s, id, s.actors[id]), b)
  {
    var a := s.actors[id];
    if a.resume && a.pid in s.procs && Hot(a.row.name) in s.fs {
      AttachOther(s, id, b);
    } else {
      DoneOther(s, id, b);
    }
  }

  lemma SettleActors(s: State, id: nat)
    requires Beside(s, id) && s.actors[id].pc.Settle? && PcsOk(s)
    ensures OthersOk(s, SettleStep(s, id, s.actors[id]), id)
  {
    var s' := SettleStep(s, id, s.actors[id]);
    LaunchKnows(s, id);
    forall i | i in s.actors && i != id ensures PcOk(s', s.actors[i]) {
      BesideOther(s, id, i);
      SettleOther(s, id, s.actors[i]);
    }
  }

  lemma AttachProcs(s: State, id: nat)
    requires Beside(s, id) && ProcsOk(s) && s.actors[id].pc.Settle? && LaunchOk(s, s.actors[id])
    requires s.actors[id].pid in s.procs && Hot(s.actors[id].row.name) in s.fs
    requires s.actors[id].u in s.rows && s.rows[s.actors[id].u].name == s.actors[id].row.name
    ensures ProcsOk(AttachStep(s, id, s.actors[id]))
  {
    var s' := AttachStep(s, id, s.actors[id]);
    forall pid | pid in s'.procs ensures ProcOk(s', pid) {
      assert ProcOk(s, pid);
    }
  }

  lemma DoneProcs(s: State, id: nat)
    requires Beside(s, id) && ProcsOk(s) && !s.actors[id].pc.Register?
    ensures ProcsOk(Become(s, id, Done(s.actors[id])))
  {
    var s' := Become(s, id, Done(s.actors[id]));
    forall pid | pid in s'.procs ensures ProcOk(s', pid) {
      assert ProcOk(s, pid);
    }
  }

  lemma SettleRow(s: State, a: Actor)
    requires PcOk(s, a) && a.pc.Settle?
    ensures a.u in s.rows && s.rows[a.u].name == a.row.name
  {
  }

  lemma SettleProcs(s: State, id: nat)
    requires Beside(s, id) && ProcsOk(s) && s.actors[id].pc.Settle? && PcOk(s, s.actors[id])
    ensures ProcsOk(SettleStep(s, id, s.actors[id]))
  {
    var a := s.actors[id];
    if a.resume && a.pid in s.procs && Hot(a.row.name) in s.fs {
      SettleRow(s, a);
      AttachProcs(s, id);
    } else {
      DoneProcs(s, id);
    }
  }

  lemma SettleDisks(s: State, id: nat)
    requires DisksOk(s) && id in s.actors && s.actors[id].pc.Settle? && PcOk(s, s.actors[id])
    ensures DisksOk(SettleStep(s, id, s.actors[id]))
  {
    var s' := SettleStep(s, id, s.actors[id]);
    forall u | u in s'.disk ensures DiskOk(s', u) {
      assert u in s.disk ==> DiskOk(s, u);
    }
  }

  /** Settling ends the operation, and leaves tables and reapers alone. */
  lemma SettleShape(s: State, id: nat, a: Actor)
    ensures var s' := SettleStep(s, id, a);
      s'.actors == s.actors[id := Done(a)] && s'.t == s.t && s'.reapers == s.reapers && s'.nextId == s.nextId
      && s'.nextPid == s.nextPid && s'.procs.Keys <= s.procs.Keys + {a.pid} && (a.pid in s'.procs ==> a.pid in s.procs)
  {
  }

  lemma SettleTable(s: State, id: nat)
    requires Beside(s, id)
    ensures var s' := SettleStep(s, id, s.actors[id]); Tokens(s') && Names(s')
  {
    SettleShape(s, id, s.actors[id]);
    DoneTokens(s, SettleStep(s, id, s.actors[id]), id);
  }

  lemma SettleIds(s: State, id: nat)
    requires id in s.actors && Ids(s) && Reapers(s)
    ensures var s' := SettleStep(s, id, s.actors[id]); Ids(s') && Reapers(s')
  {
    SettleShape(s, id, s.actors[id]);
  }

  lemma SettlePcs(s: State, id: nat)
    requires Beside(s, id) && PcsOk(s) && s.actors[id].pc.Settle?
    ensures PcsOk(SettleStep(s, id, s.actors[id]))
  {
    EndOk(s, SettleStep(s, id, s.actors[id]), id);
    SettleActors(s, id);
    AllOk(s, SettleStep(s, id, s.actors[id]), id);
  }

  lemma SettleKeeps(s: State, id: nat)
    requires Inv(s) && id in s.actors && s.actors[id].pc.Settle?
    ensures Inv(SettleStep(s, id, s.actors[id]))
  {
    PcAt(s, id);
    SettleTable(s, id);
    SettleIds(s, id);
    SettleDisks(s, id);
    SettleProcs(s, id);
    SettlePcs(s, id);
  }

  // ---------------------------------------------------------------- deleting the row

  lemma DeleteRowOther(s: State, id: nat, b: Actor)
    requires id in s.actors && s.actors[id].held && s.actors[id].pc.DeleteRow?
    requires PcOk(s, b) && OtherThan(s.actors[id], b)
    ensures PcOk(DeleteRowStep(s, id, s.actors[id]), b)
  {
    var s' := DeleteRowStep(s, id, s.actors[id]);
    if b.pc.Wait? {
      KeptWait(s, s', id, b.u, b.arch);
    }
    assert Quiet(s', b.u) == Quiet(s, b.u);
    PcFrame(s, s', b);
  }

  lemma DeleteRowActors(s: State, id: nat)
    requires Beside(s, id) && s.actors[id].pc.DeleteRow? && PcsOk(s)
    ensures OthersOk(s, DeleteRowStep(s, id, s.actors[id]), id)
  {
    var s' := DeleteRowStep(s, id, s.actors[id]);
    forall i | i in s.actors && i != id ensures PcOk(s', s.actors[i]) {
      BesideOther(s, id, i);
      DeleteRowOther(s, id, s.actors[i]);
    }
  }

  lemma DeleteRowProcs(s: State, id: nat)
    requires Beside(s, id) && ProcsOk(s) && s.actors[id].pc.DeleteRow? && Quiet(s, s.actors[id].u)
    ensures ProcsOk(DeleteRowStep(s, id, s.actors[id]))
  {
    var s' := DeleteRowStep(s, id, s.actors[id]);
    forall pid | pid in s'.procs ensures ProcOk(s', pid) {
      assert ProcOk(s, pid);
    }
  }

  lemma DeleteRowDisks(s: State, id: nat)
    requires DisksOk(s) && id in s.actors && s.actors[id].u !in s.disk
    ensures DisksOk(DeleteRowStep(s, id, s.actors[id]))
  {
    var s' := DeleteRowStep(s, id, s.actors[id]);
    forall u | u in s'.disk ensures DiskOk(s', u) {
      assert u in s.disk ==> DiskOk(s, u);
    }
  }

  /** An operation is over, and tables and processes are as they were. */
  lemma DoneTable(s: State, s': State, id: nat)
    requires Beside(s, id) && Ids(s) && Reapers(s) && s'.actors == s.actors[id := Done(s.actors[id])]
    requires s'.t == s.t && s'.procs == s.procs && s'.reapers == s.reapers && s'.nextId == s.nextId
    requires s'.nextPid == s.nextPid
    ensures Tokens(s') && Ids(s') && Names(s') && Reapers(s')
  {
    DoneTokens(s, s', id);
  }

  lemma DeleteRowTable(s: State, id: nat)
    requires Beside(s, id) && Ids(s) && Reapers(s)
    ensures var s' := DeleteRowStep(s, id, s.actors[id]); Tokens(s') && Ids(s') && Names(s') && Reapers(s')
  {
    DoneTable(s, DeleteRowStep(s, id, s.actors[id]), id);
  }

  lemma DeleteRowKnows(s: State, a: Actor)
    requires PcOk(s, a) && a.pc.DeleteRow?
    ensures Quiet(s, a.u) && a.u !in s.disk
  {
  }

  lemma DeleteRowRows(s: State, id: nat)
    requires id in s.actors && Rows(s)
    ensures Rows(DeleteRowStep(s, id, s.actors[id]))
  {
  }

  lemma DeleteRowPcs(s: State, id: nat)
    requires Beside(s, id) && PcsOk(s) && s.actors[id].pc.DeleteRow?
    ensures PcsOk(DeleteRowStep(s, id, s.actors[id]))
  {
    EndOk(s, DeleteRowStep(s, id, s.actors[id]), id);
    DeleteRowActors(s, id);
    AllOk(s, DeleteRowStep(s, id, s.actors[id]), id);
  }

  lemma DeleteRowKeeps(s: State, id: nat)
    requires Inv(s) && id in s.actors && s.actors[id].pc.DeleteRow?
    ensures Inv(DeleteRowStep(s, id, s.actors[id]))
  {
    PcAt(s, id);
    DeleteRowKnows(s, s.actors[id]);
    DeleteRowTable(s, id);
    DeleteRowRows(s, id);
    DeleteRowDisks(s, id);
    DeleteRowProcs(s, id);
    DeleteRowPcs(s, id);
  }

  // ---------------------------------------------------------------- recording the snapshot

  lemma SnapCommitOther(s: State, id: nat, b: Actor)
    requires id in s.actors && s.actors[id].held && s.actors[id].pc.SnapCommit?
    requires PcOk(s, b) && OtherThan(s.actors[id], b)
    ensures PcOk(SnapCommitStep(s, id, s.actors[id]), b)
  {
    var s' := SnapCommitStep(s, id, s.actors[id]);
    if b.pc.Wait? {
      KeptWait(s, s', id, b.u, b.arch);
    }
    assert Quiet(s', b.u) == Quiet(s, b.u);
    PcFrame(s, s', b);
  }

  lemma SnapCommitActors(s: State, id: nat)
    requires Beside(s, id) && s.actors[id].pc.SnapCommit? && PcsOk(s)
    ensures OthersOk(s, SnapCommitStep(s, id, s.actors[id]), id)
  {
    var s' := SnapCommitStep(s, id, s.actors[id]);
    forall i | i in s.actors && i != id ensures PcOk(s', s.actors[i]) {
      BesideOther(s, id, i);
      SnapCommitOther(s, id, s.actors[i]);
    }
  }

  lemma SnapCommitProcs(s: State, id: nat)
    requires Beside(s, id) && ProcsOk(s) && s.actors[id].pc.SnapCommit? && Quiet(s, s.actors[id].u)
    ensures ProcsOk(SnapCommitStep(s, id, s.actors[id]))
  {
    var s' := SnapCommitStep(s, id, s.actors[id]);
    forall pid | pid in s'.procs ensures ProcOk(s', pid) {
      assert ProcOk(s, pid);
    }
  }

  lemma SnapCommitTable(s: State, id: nat)
    requires Beside(s, id) && Ids(s) && Reapers(s)
    ensures var s' := SnapCommitStep(s, id, s.actors[id]); Tokens(s') && Ids(s') && Names(s') && Reapers(s')
  {
    DoneTable(s, SnapCommitStep(s, id, s.actors[id]), id);
  }

  lemma SnapCommitKnows(s: State, a: Actor)
    requires PcOk(s, a) && a.pc.SnapCommit?
    ensures Quiet(s, a.u) && IsSave(a) && (a.u in s.disk ==> Snap(a.sn) in s.fs && s.fs[Snap(a.sn)] == s.disk[a.u])
  {
  }

  lemma SnapCommitSnaps(s: State, id: nat)
    requires SnapsOk(s) && id in s.actors
    requires var a := s.actors[id]; a.u in s.disk ==> Snap(a.sn) in s.fs && s.fs[Snap(a.sn)] == s.disk[a.u]
    ensures SnapsOk(SnapCommitStep(s, id, s.actors[id]))
  {
  }

  lemma SnapCommitData(s: State, id: nat)
    requires Rows(s) && DisksOk(s) && id in s.actors
    ensures Rows(SnapCommitStep(s, id, s.actors[id])) && DisksOk(SnapCommitStep(s, id, s.actors[id]))
  {
    var s' := SnapCommitStep(s, id, s.actors[id]);
    forall u | u in s'.disk ensures DiskOk(s', u) {
      assert DiskOk(s, u);
    }
  }

  lemma SnapCommitPcs(s: State, id: nat)
    requires Beside(s, id) && PcsOk(s) && s.actors[id].pc.SnapCommit?
    ensures PcsOk(SnapCommitStep(s, id, s.actors[id]))
  {
    EndOk(s, SnapCommitStep(s, id, s.actors[id]), id);
    SnapCommitActors(s, id);
    AllOk(s, SnapCommitStep(s, id, s.actors[id]), id);
  }

  lemma SnapCommitKeeps(s: State, id: nat)
    requires Inv(s) && id in s.actors && s.actors[id].pc.SnapCommit?
    ensures Inv(SnapCommitStep(s, id, s.actors[id]))
  {
    PcAt(s, id);
    SnapCommitKnows(s, s.actors[id]);
    SnapCommitTable(s, id);
    SnapCommitData(s, id);
    SnapCommitSnaps(s, id);
    SnapCommitProcs(s, id);
    SnapCommitPcs(s, id);
  }
}
