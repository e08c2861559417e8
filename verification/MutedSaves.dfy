/** Steps of saves that are taken out of the view keep what is left in order. */
module MutedSaves {
  import opened Options
  import opened OpTable
  import opened World
  import opened Invariant
  import opened Frames
  import opened Safety
  import opened EveryRun
  import opened Shapes
  import opened Erasure
  import TableSteps

  /** Without `tidy`, nothing; with it, each open snapshot has one writer and is not recorded. */
  ghost predicate Pens(tidy: bool, s: State) {
    tidy ==>
      && (forall i :: i in s.actors && Writing(s.actors[i]) ==> s.actors[i].sn !in s.snaps)
      && (forall i, j :: i in s.actors && j in s.actors && OneFile(s.actors[i], s.actors[j]) ==> i == j)
  }

  /** Two saves have one snapshot open. */
  predicate OneFile(a: Actor, b: Actor) {
    Writing(a) && Writing(b) && a.sn == b.sn
  }

  /** The save moves on and keeps its token, or goes on without one. */
  lemma EraseSave(tidy: bool, s: State, s': State, id: nat)
    requires id in s.actors && id in s'.actors && s'.actors == s.actors[id := s'.actors[id]] && s'.cfg == s.cfg
    requires s'.rows == s.rows && Mute(tidy, s, s.actors[id]) && IsSave(s'.actors[id])
    requires s'.actors[id].u == s.actors[id].u && s'.actors[id].held == s.actors[id].held
    ensures Erase(tidy, s') == s'.(actors := Erase(tidy, s).actors, snaps := Shown(tidy, s'.snaps))
  {
    EraseKeys(tidy, s, s', id);
    assert Erase(tidy, s).actors[id := Stub(s.actors[id].u, s.actors[id].held)] == Erase(tidy, s).actors;
  }

  lemma StubAt(tidy: bool, s: State, id: nat)
    requires id in s.actors && Mute(tidy, s, s.actors[id])
    ensures id in Erase(tidy, s).actors && Erase(tidy, s).actors[id] == Stub(s.actors[id].u, s.actors[id].held)
  {
  }

  /** Nothing but this snapshot's file differs. */
  ghost predicate SnapOnly(fs: Files, fs': Files, sn: string) {
    forall p: Path :: p != Snap(sn) ==> FsSame(fs, fs', p)
  }

  /** The snapshot is not recorded, and no save has it open. */
  predicate Unread(e: State, sn: string) {
    sn !in e.snaps && forall i :: i in e.actors && Writing(e.actors[i]) ==> e.actors[i].sn != sn
  }

  lemma SnapFilesPc(e: State, e': State, sn: string, a: Actor)
    requires PcOk(e, a) && SnapOnly(e.fs, e'.fs, sn) && (Writing(a) ==> a.sn != sn)
    requires e' == e.(fs := e'.fs, snaps := e'.snaps) && (forall n :: n in e'.snaps ==> n in e.snaps || n == sn)
    ensures PcOk(e', a)
  {
    assert Quiet(e', a.u) == Quiet(e, a.u);
    PcFrame(e, e', a);
  }

  lemma SnapFilesProcs(e: State, e': State, sn: string)
    requires ProcsOk(e) && SnapOnly(e.fs, e'.fs, sn) && e' == e.(fs := e'.fs, snaps := e'.snaps)
    ensures ProcsOk(e')
  {
    forall pid | pid in e.procs ensures ProcOk(e', pid) {
      assert ProcOk(e, pid);
      assert FsSame(e.fs, e'.fs, Hot(e.procs[pid].name));
    }
  }

  lemma SnapFilesDisks(e: State, e': State, sn: string)
    requires DisksOk(e) && Rows(e) && SnapOnly(e.fs, e'.fs, sn) && e' == e.(fs := e'.fs, snaps := e'.snaps)
    ensures DisksOk(e')
  {
    forall u | u in e.disk ensures DiskOk(e', u) {
      assert DiskOk(e, u);
      DiskFrame(e, e', u);
    }
  }

  /** What is recorded is what the file holds, or no content at all. */
  predicate Truthful(fs: Files, sn: string, saved: Saved) {
    saved.logical.Some? ==> Snap(sn) in fs && fs[Snap(sn)] == saved.logical.value
  }

  /** The snapshot's file changes, and the snapshot may be recorded. */
  ghost predicate SnapWork(e: State, e': State, sn: string) {
    && e' == e.(fs := e'.fs, snaps := e'.snaps) && SnapOnly(e.fs, e'.fs, sn)
    && (e'.snaps == e.snaps
        || (sn in e'.snaps && e'.snaps == e.snaps[sn := e'.snaps[sn]] && Truthful(e'.fs, sn, e'.snaps[sn])))
  }

  lemma SnapFilesSnaps(e: State, e': State, sn: string)
    requires SnapsOk(e) && SnapWork(e, e', sn) && sn !in e.snaps
    ensures SnapsOk(e') && forall n :: n in e'.snaps ==> n in e.snaps || n == sn
  {
    forall n | n in e.snaps ensures FsSame(e.fs, e'.fs, Snap(n)) {
    }
  }

  lemma SnapFilesActors(e: State, e': State, sn: string)
    requires PcsOk(e) && SnapOnly(e.fs, e'.fs, sn) && Unread(e, sn) && e' == e.(fs := e'.fs, snaps := e'.snaps)
    requires forall n :: n in e'.snaps ==> n in e.snaps || n == sn
    ensures PcsOk(e')
  {
    forall id | id in e.actors ensures PcOk(e', e.actors[id]) {
      SnapFilesPc(e, e', sn, e.actors[id]);
    }
  }

  lemma SnapFilesKeep(e: State, e': State, sn: string)
    requires Inv(e) && SnapWork(e, e', sn) && Unread(e, sn)
    ensures Inv(e')
  {
    SnapFilesProcs(e, e', sn);
    SnapFilesDisks(e, e', sn);
    SnapFilesSnaps(e, e', sn);
    SnapFilesActors(e, e', sn);
  }

  lemma ShedWriting(tidy: bool, s: State, a: Actor)
    requires KindOk(a) && Writing(Shed(tidy, s, a))
    ensures tidy && Shed(tidy, s, a) == a
  {
  }

  /** A snapshot that a save which is taken out has open, or may open, is read by none that is left in. */
  lemma UnreadErase(tidy: bool, s: State, id: nat)
    requires Shaped(s) && id in s.actors && Mute(tidy, s, s.actors[id]) && Pens(tidy, s)
    requires tidy ==> Writing(s.actors[id]) || MayOpen(s, id)
    ensures Unread(Erase(tidy, s), s.actors[id].sn)
  {
    forall i | i in Erase(tidy, s).actors && Writing(Erase(tidy, s).actors[i]) ensures Erase(tidy, s).actors[i].sn != s.actors[id].sn {
      assert ShapeOk(s.cfg, s.actors[i]);
      ShedWriting(tidy, s, s.actors[i]);
      StubAt(tidy, s, id);
      assert OneFile(s.actors[i], s.actors[id]) ==> i == id;
    }
  }

  /** Only the save itself changes. */
  lemma QuietWork(tidy: bool, s: State, id: nat, a': Actor)
    requires Blind(tidy, s) && id in s.actors && Mute(tidy, s, s.actors[id]) && IsSave(a')
    requires a'.u == s.actors[id].u && a'.held == s.actors[id].held
    ensures Blind(tidy, Become(s, id, a'))
  {
    EraseSave(tidy, s, Become(s, id, a'), id);
  }

  /** The save changes its snapshot. */
  lemma OpenWork(tidy: bool, s: State, s': State, id: nat)
    requires Blind(tidy, s) && id in s.actors && id in s'.actors && Mute(tidy, s, s.actors[id])
    requires s' == s.(actors := s.actors[id := s'.actors[id]], fs := s'.fs, snaps := s'.snaps)
    requires IsSave(s'.actors[id]) && s'.actors[id].u == s.actors[id].u && s'.actors[id].held == s.actors[id].held
    requires Unread(Erase(tidy, s), s.actors[id].sn) && SnapOnly(s.fs, s'.fs, s.actors[id].sn)
    requires SnapWork(Erase(tidy, s), Erase(tidy, s).(fs := s'.fs, snaps := Shown(tidy, s'.snaps)), s.actors[id].sn)
    ensures Blind(tidy, s')
  {
    EraseSave(tidy, s, s', id);
    Seen(tidy, s);
    SnapFilesKeep(Erase(tidy, s), Erase(tidy, s).(fs := s'.fs, snaps := Shown(tidy, s'.snaps)), s.actors[id].sn);
  }

  lemma SaveLeaves(tidy: bool, s: State, id: nat)
    requires Blind(tidy, s) && id in s.actors && Mute(tidy, s, s.actors[id]) && !s.actors[id].held
    ensures Blind(tidy, Leave(s, id))
  {
    Seen(tidy, s);
    StubAt(tidy, s, id);
    TableSteps.LeavePassive(Erase(tidy, s), id);
    LeaveErase(tidy, s, id);
  }

  lemma CancelTokens(s: State, u: Uuid)
    requires Tokens(s) && u in s.t.archives
    ensures Tokens(s.(t := Cancel(s.t, u)))
  {
  }

  lemma CancelSwap(e: State, id: nat)
    requires id in e.actors && e.actors[id] == Stub(e.actors[id].u, false) && e.actors[id].u in e.t.archives
    ensures TableSteps.Swap(e, e.(t := Cancel(e.t, e.actors[id].u)), id)
  {
    var e' := e.(t := Cancel(e.t, e.actors[id].u));
    assert e'.actors == e.actors[id := e'.actors[id]];
  }

  lemma CancelKeeps(e: State, id: nat)
    requires Inv(e) && id in e.actors && e.actors[id] == Stub(e.actors[id].u, false) && e.actors[id].u in e.t.archives
    ensures Inv(e.(t := Cancel(e.t, e.actors[id].u)))
  {
    var e' := e.(t := Cancel(e.t, e.actors[id].u));
    CancelTokens(e, e.actors[id].u);
    StubPc(e', e.actors[id]);
    CancelSwap(e, id);
    TableSteps.SwapStep(e, e', id);
  }

  lemma GrantStubTokens(e: State, e': State, id: nat)
    requires Tokens(e) && id in e.actors && !e.actors[id].held && e.actors[id].kind == SaveSnapshot
    requires e.actors[id].u !in e.t.owner
    requires e' == e.(actors := e.actors[id := Stub(e.actors[id].u, true)], t := e.t.(owner := e.t.owner[e.actors[id].u := id]))
    ensures Tokens(e')
  {
  }

  lemma GrantSwap(e: State, e': State, id: nat)
    requires id in e.actors && e.actors[id] == Stub(e.actors[id].u, false) && e.actors[id].u !in e.t.owner
    requires e' == e.(actors := e.actors[id := Stub(e.actors[id].u, true)], t := e.t.(owner := e.t.owner[e.actors[id].u := id]))
    ensures TableSteps.Swap(e, e', id)
  {
  }

  lemma GrantStub(e: State, e': State, id: nat)
    requires Inv(e) && id in e.actors && e.actors[id] == Stub(e.actors[id].u, false) && e.actors[id].u !in e.t.owner
    requires e' == e.(actors := e.actors[id := Stub(e.actors[id].u, true)], t := e.t.(owner := e.t.owner[e.actors[id].u := id]))
    ensures Inv(e')
  {
    GrantStubTokens(e, e', id);
    StubPc(e', e'.actors[id]);
    GrantSwap(e, e', id);
    TableSteps.SwapStep(e, e', id);
  }

  lemma SaveWaits(tidy: bool, s: State, id: nat, a': Actor)
    requires Blind(tidy, s) && id in s.actors && Mute(tidy, s, s.actors[id]) && !s.actors[id].held
    requires s.actors[id].u in s.t.archives
    requires a' == s.actors[id].(pc := Wait, arch := a'.arch)
    ensures Blind(tidy, Become(s, id, a').(t := Cancel(s.t, a'.u)))
  {
    Seen(tidy, s);
    StubAt(tidy, s, id);
    EraseSave(tidy, s, Become(s, id, a').(t := Cancel(s.t, a'.u)), id);
    CancelKeeps(Erase(tidy, s), id);
  }

  lemma SaveGranted(tidy: bool, s: State, id: nat, a': Actor, t': Table)
    requires Blind(tidy, s) && id in s.actors && Mute(tidy, s, s.actors[id]) && !s.actors[id].held
    requires s.actors[id].u !in s.t.owner
    requires IsSave(a') && a'.u == s.actors[id].u && a'.held && t' == s.t.(owner := s.t.owner[a'.u := id])
    ensures Blind(tidy, Become(s, id, a').(t := t'))
  {
    Seen(tidy, s);
    StubAt(tidy, s, id);
    GrantErase(tidy, s, id, a', t');
    GrantStub(Erase(tidy, s), Become(Erase(tidy, s), id, Stub(a'.u, true)).(t := t'), id);
  }

  lemma GrantErase(tidy: bool, s: State, id: nat, a': Actor, t': Table)
    requires id in s.actors && Mute(tidy, s, s.actors[id]) && IsSave(a') && a'.u == s.actors[id].u && a'.held
    ensures Erase(tidy, Become(s, id, a').(t := t')) == Become(Erase(tidy, s), id, Stub(a'.u, true)).(t := t')
  {
    EraseKeys(tidy, s, Become(s, id, a').(t := t'), id);
  }

  lemma SaveBegins(tidy: bool, s: State, id: nat)
    requires Blind(tidy, s) && id in s.actors && Mute(tidy, s, s.actors[id]) && !s.actors[id].held
    requires s.actors[id].pc.Begin?
    ensures Blind(tidy, BeginStep(s, id, s.actors[id]))
  {
    var a, b := s.actors[id], TryBegin(s.t, s.actors[id], id);
    match b.outcome
    case Busy => SaveLeaves(tidy, s, id);
    case WaitFor(arch) =>
      TableSteps.BlockedTable(s.t, a, id);
      SaveWaits(tidy, s, id, a.(pc := Wait, arch := arch));
    case Granted =>
      TableSteps.GrantedTable(s.t, a, id);
      SaveGranted(tidy, s, id, WithToken(a), b.t);
  }

  lemma SaveEnds(tidy: bool, s: State, id: nat)
    requires Blind(tidy, s) && id in s.actors && Mute(tidy, s, s.actors[id]) && s.actors[id].held
    requires s.actors[id].pc.End?
    ensures Blind(tidy, EndStep(s, id, s.actors[id]))
  {
    Seen(tidy, s);
    StubAt(tidy, s, id);
    TableSteps.EndKeeps(Erase(tidy, s), id);
    EraseLeave(tidy, s, EndStep(s, id, s.actors[id]), id);
  }

  lemma SaveEarly(tidy: bool, s: State, id: nat, c: Pick)
    requires Blind(tidy, s) && id in s.actors && Mute(tidy, s, s.actors[id]) && LocalsOk(s.actors[id])
    requires var pc := s.actors[id].pc; pc.Begin? || pc.Wait? || pc.Read? || pc.SnapExists? || pc.End?
    ensures Blind(tidy, GoStep(s, id, c))
  {
    var a := s.actors[id];
    EarlyStep(s, id, c);
    match a.pc
    case Begin => SaveBegins(tidy, s, id);
    case Wait => QuietWork(tidy, s, id, a.(pc := Begin));
    case Read =>
      if a.u in s.rows {
        QuietWork(tidy, s, id, a.(row := s.rows[a.u], hasRow := true, pc := Begin));
      } else {
        SaveLeaves(tidy, s, id);
      }
    case SnapExists =>
      if a.sn in s.snaps {
        SaveLeaves(tidy, s, id);
      } else {
        QuietWork(tidy, s, id, a.(pc := Read));
      }
    case End => SaveEnds(tidy, s, id);
  }

  /** A save under its token writes nothing but its snapshot. */
  lemma SaveEffect(s: State, a: Actor, c: Pick)
    requires a.pc.SnapCheck? || Saving(a.pc)
    ensures var e := EffectOf(s, a, c);
      e.a.kind == a.kind && e.a.u == a.u && e.a.held == a.held && e.archived.None? && e.disk.KeepDisk?
      && SnapOnly(s.fs, OnFiles(s.fs, e.file), a.sn)
      && (a.pc.SnapCheck? || a.pc.SnapResolve? ==> e.file.NoFile?)
  {
    match a.pc
    case SnapCheck =>
    case SnapResolve =>
    case SnapOpen =>
    case SnapCopy =>
  }

  lemma SaveLooks(tidy: bool, s: State, id: nat, c: Pick)
    requires Blind(tidy, s) && id in s.actors && Mute(tidy, s, s.actors[id])
    requires s.actors[id].pc.SnapCheck? || s.actors[id].pc.SnapResolve?
    ensures Blind(tidy, GoStep(s, id, c))
  {
    var e := EffectOf(s, s.actors[id], c);
    SaveEffect(s, s.actors[id], c);
    InsideStep(s, id, c);
    assert Perform(s, id, e) == Become(s, id, e.a);
    QuietWork(tidy, s, id, e.a);
  }

  lemma SaveWrites(tidy: bool, s: State, id: nat, c: Pick)
    requires Blind(tidy, s) && Shaped(s) && Pens(tidy, s) && id in s.actors && Mute(tidy, s, s.actors[id])
    requires Minded(tidy, s, id)
    requires s.actors[id].pc.SnapOpen? || s.actors[id].pc.SnapCopy?
    ensures Blind(tidy, GoStep(s, id, c))
  {
    var e := EffectOf(s, s.actors[id], c);
    SaveEffect(s, s.actors[id], c);
    InsideStep(s, id, c);
    UnreadErase(tidy, s, id);
    OpenWork(tidy, s, Perform(s, id, e), id);
  }

  /** The VM of a save that is taken out has no disk to record. */
  lemma NoContent(tidy: bool, s: State, id: nat)
    requires Blind(tidy, s) && tidy && id in s.actors && Mute(tidy, s, s.actors[id])
    ensures s.actors[id].u !in s.disk
  {
    Seen(tidy, s);
    assert s.actors[id].u in s.disk ==> DiskOk(Erase(tidy, s), s.actors[id].u);
  }

  lemma SaveCommits(tidy: bool, s: State, id: nat)
    requires Blind(tidy, s) && Shaped(s) && Pens(tidy, s) && id in s.actors && Mute(tidy, s, s.actors[id])
    requires s.actors[id].pc.SnapCommit?
    ensures Blind(tidy, SnapCommitStep(s, id, s.actors[id]))
  {
    if tidy {
      NoContent(tidy, s, id);
    }
    UnreadErase(tidy, s, id);
    OpenWork(tidy, s, SnapCommitStep(s, id, s.actors[id]), id);
  }

  lemma SavePcs(a: Actor)
    requires IsSave(a) && KindOk(a)
    ensures var pc := a.pc;
      pc.Begin? || pc.Wait? || pc.Read? || pc.SnapExists? || pc.End? || pc.SnapCheck? || Saving(pc) || pc.SnapCommit?
  {
  }

  lemma SaveBlind(tidy: bool, s: State, id: nat, c: Pick)
    requires Blind(tidy, s) && Core(s) && Shaped(s) && Pens(tidy, s) && id in s.actors && Mute(tidy, s, s.actors[id])
    requires KindOk(s.actors[id]) && Minded(tidy, s, id)
    ensures Blind(tidy, GoStep(s, id, c))
  {
    var pc := s.actors[id].pc;
    CoreLocals(s, id);
    SavePcs(s.actors[id]);
    if pc.SnapCheck? || pc.SnapResolve? {
      SaveLooks(tidy, s, id, c);
    } else if pc.SnapOpen? || pc.SnapCopy? {
      SaveWrites(tidy, s, id, c);
    } else if pc.SnapCommit? {
      LateStep(s, id, c);
      SaveCommits(tidy, s, id);
    } else {
      SaveEarly(tidy, s, id, c);
    }
  }
}
