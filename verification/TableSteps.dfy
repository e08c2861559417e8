/** Steps that take, pass on or give back a VM's token, or read a row, keep the invariant. */
module TableSteps {
  import opened Options
  import opened OpTable
  import opened World
  import opened Invariant
  import opened Frames

  /** A VM without a registered process, and not just being launched, has no process at all. */
  lemma NoProcess(s: State, u: Uuid)
    requires ProcsOk(s) && Reapers(s) && u !in s.t.running
    requires u in s.t.owner && s.t.owner[u] in s.actors ==> !s.actors[s.t.owner[u]].pc.Register?
    ensures Quiet(s, u)
  {
    forall pid | pid in s.procs ensures s.procs[pid].u != u {
      assert ProcOk(s, pid);
    }
  }

  // ---------------------------------------------------------------- one actor changes

  /** The actor keeps its identity; a row it carries is the old one or has just been read. */
  ghost predicate Successor(s: State, a: Actor, a': Actor) {
    && a'.u == a.u && a'.kind == a.kind && a'.sn == a.sn && !a.pc.Register? && !a'.pc.Register? && !a'.pc.Settle? && !Writing(a')
    && (a'.hasRow ==> (a.hasRow && a'.row == a.row) || (a.u in s.rows && a'.row == s.rows[a.u]))
  }

  /** The table changes only in who holds which token and which archives are recorded or cancelled. */
  ghost predicate SameBut(s: State, s': State, id: nat) {
    && id in s.actors && id in s'.actors
    && s' == s.(actors := s.actors[id := s'.actors[id]], t := s.t.(owner := s'.t.owner, archives := s'.t.archives))
  }

  lemma SwapNames(s: State, s': State, id: nat)
    requires Names(s) && PcsOk(s) && SameBut(s, s', id) && Successor(s, s.actors[id], s'.actors[id])
    ensures Names(s')
  {
    var a, a' := s.actors[id], s'.actors[id];
    forall i | i in s.actors && i != id
      ensures OneVm(a', s.actors[i]) && OneVm(s.actors[i], a') && !Clash(a', s.actors[i]) && !Clash(s.actors[i], a')
    {
      assert PcOk(s, s.actors[i]);
      assert OneVm(a, s.actors[i]);
      assert !Clash(a, s.actors[i]);
    }
  }

  lemma SwapOther(s: State, s': State, id: nat, i: nat)
    requires SameBut(s, s', id) && i in s.actors && i != id && PcOk(s, s.actors[i])
    requires IsArchive(s.actors[id]) ==> IsArchive(s'.actors[id]) && s'.actors[id].u == s.actors[id].u
    ensures PcOk(s', s.actors[i])
  {
    var b := s.actors[i];
    assert Quiet(s', b.u) == Quiet(s, b.u);
    PcFrame(s, s', b);
  }

  lemma SwapOthers(s: State, s': State, id: nat)
    requires SameBut(s, s', id) && PcsOk(s) && SelfOk(s', id)
    requires IsArchive(s.actors[id]) ==> IsArchive(s'.actors[id]) && s'.actors[id].u == s.actors[id].u
    ensures PcsOk(s')
  {
    forall i | i in s'.actors ensures PcOk(s', s'.actors[i]) {
      if i != id {
        assert PcOk(s, s.actors[i]);
        SwapOther(s, s', id, i);
      }
    }
  }

  /** No token changes hands. */
  ghost predicate OwnersKept(s: State, s': State) {
    forall u :: u in s.t.owner ==> u in s'.t.owner && s'.t.owner[u] == s.t.owner[u]
  }

  lemma SwapProcs(s: State, s': State, id: nat)
    requires ProcsOk(s) && SameBut(s, s', id) && Tokens(s) && Tokens(s')
    requires !s.actors[id].pc.Register? && OwnersKept(s, s')
    ensures ProcsOk(s')
  {
    forall pid | pid in s.procs ensures ProcOk(s', pid) {
      assert ProcOk(s, pid);
    }
  }

  lemma SwapDisks(s: State, s': State, id: nat)
    requires DisksOk(s) && SnapsOk(s) && SameBut(s, s', id)
    ensures DisksOk(s') && SnapsOk(s')
  {
    forall u | u in s'.disk ensures DiskOk(s', u) {
      assert DiskOk(s, u);
    }
  }

  lemma SwapRest(s: State, s': State, id: nat)
    requires Ids(s) && Rows(s) && Reapers(s) && SameBut(s, s', id)
    ensures Ids(s') && Rows(s') && Reapers(s')
  {
  }

  /** One actor moves on, no token is taken from anyone, and no file, row or process changes. */
  ghost predicate Swap(s: State, s': State, id: nat) {
    && SameBut(s, s', id) && Successor(s, s.actors[id], s'.actors[id]) && OwnersKept(s, s')
    && (IsArchive(s.actors[id]) ==> IsArchive(s'.actors[id]))
  }

  /** `Swap` and what the new state must know, as one fact that the solver does not look into. */
  ghost predicate Swapped(s: State, s': State, id: nat) {
    forall x :: x == s' ==> Swap(s, x, id) && Tokens(x) && SelfOk(x, id)
  }

  lemma SwapStep(s: State, s': State, id: nat)
    requires Inv(s) && Swapped(s, s', id)
    ensures Inv(s')
  {
    assert Swap(s, s', id) && Tokens(s') && SelfOk(s', id);
    SwapRest(s, s', id);
    SwapNames(s, s', id);
    SwapProcs(s, s', id);
    SwapDisks(s, s', id);
    SwapOthers(s, s', id);
  }

  // ---------------------------------------------------------------- one actor leaves

  ghost predicate Left(s: State, s': State, id: nat) {
    && id in s.actors
    && s' == s.(actors := s.actors - {id}, t := s'.t)
    && s'.t.running == s.t.running
    && s.t.closed <= s'.t.closed
  }

  lemma LeftOther(s: State, s': State, id: nat, i: nat)
    requires Left(s, s', id) && i in s.actors && i != id && PcOk(s, s.actors[i])
    requires IsArchive(s.actors[id]) ==> id in s'.t.closed
    ensures PcOk(s', s.actors[i])
  {
    var b := s.actors[i];
    assert Quiet(s', b.u) == Quiet(s, b.u);
    PcFrame(s, s', b);
  }

  lemma LeftOthers(s: State, s': State, id: nat)
    requires Left(s, s', id) && PcsOk(s)
    requires IsArchive(s.actors[id]) ==> id in s'.t.closed
    ensures PcsOk(s')
  {
    forall i | i in s'.actors ensures PcOk(s', s'.actors[i]) {
      assert PcOk(s, s.actors[i]);
      LeftOther(s, s', id, i);
    }
  }

  lemma LeftProcs(s: State, s': State, id: nat)
    requires ProcsOk(s) && Left(s, s', id) && Tokens(s)
    requires !s.actors[id].pc.Register?
    requires forall u :: u in s.t.owner && s.t.owner[u] != id ==> u in s'.t.owner && s'.t.owner[u] == s.t.owner[u]
    ensures ProcsOk(s')
  {
    forall pid | pid in s.procs ensures ProcOk(s', pid) {
      assert ProcOk(s, pid);
    }
  }

  lemma LeftStep(s: State, s': State, id: nat)
    requires Inv(s) && Left(s, s', id) && Tokens(s') && Ids(s')
    requires !s.actors[id].pc.Register?
    requires IsArchive(s.actors[id]) ==> id in s'.t.closed
    requires forall u :: u in s.t.owner && s.t.owner[u] != id ==> u in s'.t.owner && s'.t.owner[u] == s.t.owner[u]
    ensures Inv(s')
  {
    LeftProcs(s, s', id);
    forall u | u in s'.disk ensures DiskOk(s', u) {
      assert DiskOk(s, u);
    }
    LeftOthers(s, s', id);
  }

  // ---------------------------------------------------------------- the steps

  lemma LeaveTokens(s: State, id: nat)
    requires Tokens(s) && Ids(s) && id in s.actors && !s.actors[id].held
    ensures Tokens(Leave(s, id)) && Ids(Leave(s, id))
  {
  }

  lemma LeavePassive(s: State, id: nat)
    requires Inv(s) && id in s.actors && !s.actors[id].held && !s.actors[id].pc.Register?
    ensures Inv(Leave(s, id))
  {
    LeaveTokens(s, id);
    LeftStep(s, Leave(s, id), id);
  }

  /** The waiter's archive is the recorded one, so its `done` is still to be closed. */
  lemma BeginWaitTokens(s: State, id: nat, a': Actor)
    requires Tokens(s) && id in s.actors && !s.actors[id].held && s.actors[id].u in s.t.archives
    requires a' == s.actors[id].(pc := Wait, arch := s.t.archives[s.actors[id].u].id)
    ensures Tokens(Become(s, id, a').(t := Cancel(s.t, a'.u)))
    ensures WaitOk(Become(s, id, a').(t := Cancel(s.t, a'.u)), a'.u, a'.arch)
  {
  }

  /** An actor outside its VM, or one that carries no row yet, relies on little. */
  lemma EarlyPc(s: State, a: Actor)
    requires LocalsOk(a) && (a.hasRow ==> RowOk(s, a.u, a.row)) && (a.pc.Wait? ==> WaitOk(s, a.u, a.arch))
    requires a.pc.Begin? || a.pc.Wait? || a.pc.Read? || a.pc.End? || a.pc.DeleteCheck? || a.pc.SnapCheck?
    requires a.pc.Read? && a.kind == StartVM ==> Quiet(s, a.u)
    requires IsArchive(a) ==> s.cfg.coldOn
    requires a.pc.SnapCheck? ==> IsSave(a)
    ensures PcOk(s, a)
  {
  }

  lemma BeginWaitShape(s: State, id: nat, a': Actor)
    requires id in s.actors && s.actors[id].pc.Begin? && s.actors[id].u in s.t.archives
    requires a' == s.actors[id].(pc := Wait, arch := s.t.archives[s.actors[id].u].id)
    requires !s.actors[id].held
    ensures Swap(s, Become(s, id, a').(t := Cancel(s.t, a'.u)), id)
  {
  }

  lemma BeginWaitPc(s: State, a: Actor, a': Actor, s': State)
    requires PcOk(s, a) && a.pc.Begin? && a' == a.(pc := Wait, arch := a'.arch) && WaitOk(s', a'.u, a'.arch)
    requires s'.rows == s.rows && s'.cfg == s.cfg && s'.snaps == s.snaps
    ensures PcOk(s', a')
  {
    EarlyPc(s', a');
  }

  lemma BeginWaitHolder(s: State, id: nat, a': Actor)
    requires Inv(s) && id in s.actors && s.actors[id].pc.Begin? && s.actors[id].u in s.t.archives && !s.actors[id].held
    requires a' == s.actors[id].(pc := Wait, arch := s.t.archives[s.actors[id].u].id)
    ensures SelfOk(Become(s, id, a').(t := Cancel(s.t, a'.u)), id)
  {
    PcAt(s, id);
    BeginWaitTokens(s, id, a');
    BeginWaitPc(s, s.actors[id], a', Become(s, id, a').(t := Cancel(s.t, a'.u)));
  }

  lemma BeginWait(s: State, id: nat)
    requires Inv(s) && id in s.actors && s.actors[id].pc.Begin? && s.actors[id].u in s.t.archives && !s.actors[id].held
    ensures var a := s.actors[id].(pc := Wait, arch := s.t.archives[s.actors[id].u].id);
      Inv(Become(s, id, a).(t := Cancel(s.t, a.u)))
  {
    var a := s.actors[id].(pc := Wait, arch := s.t.archives[s.actors[id].u].id);
    BeginWaitTokens(s, id, a);
    BeginWaitShape(s, id, a);
    BeginWaitHolder(s, id, a);
    SwapStep(s, Become(s, id, a).(t := Cancel(s.t, a.u)), id);
  }

  lemma GrantTokens(s: State, id: nat, t': Table)
    requires Tokens(s) && id in s.actors && !s.actors[id].held && s.actors[id].u !in s.t.owner
    requires t'.owner == s.t.owner[s.actors[id].u := id] && t'.running == s.t.running && t'.closed == s.t.closed
    requires t'.archives == if s.actors[id].kind == ArchiveStoppedVM
                            then s.t.archives[s.actors[id].u := Archive(id, false)] else s.t.archives
    ensures Tokens(Become(s, id, WithToken(s.actors[id])).(t := t'))
  {
  }

  lemma GrantedTable(t: Table, a: Actor, id: nat)
    requires TryBegin(t, a, id).outcome == Granted
    ensures var t' := TryBegin(t, a, id).t;
      && a.u !in t.owner && (a.kind == StartVM ==> a.u !in t.running)
      && t'.owner == t.owner[a.u := id] && t'.running == t.running && t'.closed == t.closed
      && t'.archives == if a.kind == ArchiveStoppedVM then t.archives[a.u := Archive(id, false)] else t.archives
  {
  }

  lemma GrantStartPc(s: State, id: nat, t': Table, a: Actor)
    requires a.pc.Begin? && PcOk(s, a) && a.kind == StartVM && Quiet(s, a.u)
    requires t'.running == s.t.running && t'.closed == s.t.closed
    ensures PcOk(Become(s, id, WithToken(a)).(t := t'), WithToken(a))
  {
    EarlyPc(Become(s, id, WithToken(a)).(t := t'), WithToken(a));
  }

  lemma GrantArchivePc(s: State, id: nat, t': Table, a: Actor)
    requires a.pc.Begin? && PcOk(s, a) && a.kind == ArchiveStoppedVM && s.cfg.coldOn
    ensures PcOk(Become(s, id, WithToken(a)).(t := t'), WithToken(a))
  {
    EarlyPc(Become(s, id, WithToken(a)).(t := t'), WithToken(a));
  }

  lemma GrantDeletePc(s: State, id: nat, t': Table, a: Actor)
    requires a.pc.Begin? && PcOk(s, a) && a.kind == DeleteVM
    ensures PcOk(Become(s, id, WithToken(a)).(t := t'), WithToken(a))
  {
    EarlyPc(Become(s, id, WithToken(a)).(t := t'), WithToken(a));
  }

  lemma GrantSavePc(s: State, id: nat, t': Table, a: Actor)
    requires a.pc.Begin? && PcOk(s, a) && a.kind == SaveSnapshot
    ensures PcOk(Become(s, id, WithToken(a)).(t := t'), WithToken(a))
  {
    EarlyPc(Become(s, id, WithToken(a)).(t := t'), WithToken(a));
  }

  lemma GrantPc(s: State, id: nat, t': Table, a: Actor)
    requires a.pc.Begin? && PcOk(s, a)
    requires t'.running == s.t.running && t'.closed == s.t.closed
    requires a.kind == StartVM ==> Quiet(s, a.u)
    requires a.kind == ArchiveStoppedVM ==> s.cfg.coldOn
    ensures PcOk(Become(s, id, WithToken(a)).(t := t'), WithToken(a))
  {
    match a.kind {
      case StartVM => GrantStartPc(s, id, t', a);
      case ArchiveStoppedVM => GrantArchivePc(s, id, t', a);
      case DeleteVM => GrantDeletePc(s, id, t', a);
      case SaveSnapshot => GrantSavePc(s, id, t', a);
    }
  }

  lemma GrantShape(s: State, id: nat, t': Table)
    requires id in s.actors && s.actors[id].pc.Begin? && t'.running == s.t.running && t'.closed == s.t.closed
    requires t'.owner == s.t.owner[s.actors[id].u := id] && s.actors[id].u !in s.t.owner && !s.actors[id].held
    ensures Swap(s, Become(s, id, WithToken(s.actors[id])).(t := t'), id)
  {
  }

  lemma GrantHolder(s: State, id: nat, t': Table)
    requires Inv(s) && id in s.actors && s.actors[id].pc.Begin? && s.actors[id].u !in s.t.owner
    requires t'.running == s.t.running && t'.closed == s.t.closed
    requires s.actors[id].kind == StartVM ==> s.actors[id].u !in s.t.running
    requires s.actors[id].kind == ArchiveStoppedVM ==> s.cfg.coldOn
    ensures SelfOk(Become(s, id, WithToken(s.actors[id])).(t := t'), id)
  {
    PcAt(s, id);
    if s.actors[id].kind == StartVM {
      NoProcess(s, s.actors[id].u);
    }
    GrantPc(s, id, t', s.actors[id]);
  }

  lemma Grant(s: State, id: nat, t': Table)
    requires Inv(s) && id in s.actors && s.actors[id].pc.Begin? && s.actors[id].u !in s.t.owner && !s.actors[id].held
    requires t'.owner == s.t.owner[s.actors[id].u := id] && t'.running == s.t.running && t'.closed == s.t.closed
    requires t'.archives == if s.actors[id].kind == ArchiveStoppedVM
                            then s.t.archives[s.actors[id].u := Archive(id, false)] else s.t.archives
    requires s.actors[id].kind == StartVM ==> s.actors[id].u !in s.t.running
    requires s.actors[id].kind == ArchiveStoppedVM ==> s.cfg.coldOn
    ensures Inv(Become(s, id, WithToken(s.actors[id])).(t := t'))
  {
    var s' := Become(s, id, WithToken(s.actors[id])).(t := t');
    GrantTokens(s, id, t');
    GrantHolder(s, id, t');
    GrantShape(s, id, t');
    SwapStep(s, s', id);
  }

  lemma BeginIdle(s: State, id: nat)
    requires Inv(s) && id in s.actors && (s.actors[id].pc.Begin? || s.actors[id].pc.Wait?)
    ensures !s.actors[id].held
  {
    PcAt(s, id);
  }

  lemma BeginGranted(s: State, id: nat, c: Pick)
    requires Inv(s) && id in s.actors && s.actors[id].pc.Begin? && GoEnabled(s, s.actors[id], c)
    requires TryBegin(s.t, s.actors[id], id).outcome == Granted
    ensures Inv(BeginStep(s, id, s.actors[id]))
  {
    BeginIdle(s, id);
    GrantedTable(s.t, s.actors[id], id);
    Grant(s, id, TryBegin(s.t, s.actors[id], id).t);
  }

  lemma BlockedTable(t: Table, a: Actor, id: nat)
    ensures TryBegin(t, a, id).outcome.WaitFor? ==>
      a.u in t.archives && TryBegin(t, a, id) == Begun(Cancel(t, a.u), WaitFor(t.archives[a.u].id))
  {
  }

  lemma BeginBlocked(s: State, id: nat)
    requires Inv(s) && id in s.actors && s.actors[id].pc.Begin?
    requires TryBegin(s.t, s.actors[id], id).outcome != Granted
    ensures Inv(BeginStep(s, id, s.actors[id]))
  {
    BeginIdle(s, id);
    BlockedTable(s.t, s.actors[id], id);
    if TryBegin(s.t, s.actors[id], id).outcome == Busy {
      LeavePassive(s, id);
    } else {
      BeginWait(s, id);
    }
  }

  lemma QuietTokens(s: State, id: nat, a': Actor)
    requires Tokens(s) && id in s.actors && a'.held == s.actors[id].held && a'.u == s.actors[id].u
    requires a'.kind == s.actors[id].kind
    ensures Tokens(Become(s, id, a'))
  {
  }

  lemma MoveShape(s: State, id: nat, a': Actor)
    requires id in s.actors && Successor(s, s.actors[id], a') && a'.held == s.actors[id].held
    ensures Swap(s, Become(s, id, a'), id)
  {
  }

  /** A step that only moves one actor's program counter or reads its row. */
  lemma MoveKeeps(s: State, id: nat, a': Actor)
    requires Inv(s) && id in s.actors && Successor(s, s.actors[id], a') && a'.held == s.actors[id].held
    requires PcOk(Become(s, id, a'), a')
    ensures Inv(Become(s, id, a'))
  {
    QuietTokens(s, id, a');
    MoveShape(s, id, a');
    SwapStep(s, Become(s, id, a'), id);
  }

  lemma WaitPc(s: State, id: nat, a: Actor)
    requires PcOk(s, a) && a.pc.Wait?
    ensures Successor(s, a, a.(pc := Begin)) && PcOk(Become(s, id, a.(pc := Begin)), a.(pc := Begin))
  {
    EarlyPc(Become(s, id, a.(pc := Begin)), a.(pc := Begin));
  }

  lemma WaitKeeps(s: State, id: nat)
    requires Inv(s) && id in s.actors && s.actors[id].pc.Wait?
    ensures Inv(Become(s, id, s.actors[id].(pc := Begin)))
  {
    PcAt(s, id);
    WaitPc(s, id, s.actors[id]);
    MoveKeeps(s, id, s.actors[id].(pc := Begin));
  }

  /** A row read under the token is current. */
  lemma FreshRowPc(s: State, id: nat, a: Actor, a': Actor)
    requires PcOk(s, a) && a.pc.Read? && a.held && Rows(s) && a.u in s.rows
    requires a' == a.(row := s.rows[a.u], hasRow := true, pc := a'.pc)
    requires a'.pc.ArchiveCheck? || a'.pc.ResumeLaunch? || a'.pc.HydrateStat?
    requires a'.pc.ArchiveCheck? <==> a.kind == ArchiveStoppedVM
    ensures Successor(s, a, a') && PcOk(Become(s, id, a'), a')
  {
    assert RowShape(s.cfg, s.rows[a.u]);
  }

  lemma DonePc(s: State, id: nat, a: Actor)
    requires PcOk(s, a) && a.pc.Read? && a.held
    ensures Successor(s, a, Done(a)) && PcOk(Become(s, id, Done(a)), Done(a))
  {
    EarlyPc(Become(s, id, Done(a)), Done(a));
  }

  lemma ReadHeldPc(s: State, id: nat, a: Actor, c: Pick)
    requires PcOk(s, a) && a.pc.Read? && a.held && Rows(s)
    ensures var a' := ReadHeld(s, a, c);
      Successor(s, a, a') && PcOk(Become(s, id, a'), a') && a'.held
  {
    var a' := ReadHeld(s, a, c);
    if a' == Done(a) {
      DonePc(s, id, a);
    } else {
      FreshRowPc(s, id, a, a');
    }
  }

  lemma ReadHeldKeeps(s: State, id: nat, c: Pick)
    requires Inv(s) && id in s.actors && s.actors[id].pc.Read? && s.actors[id].held
    ensures Inv(Become(s, id, ReadHeld(s, s.actors[id], c)))
  {
    PcAt(s, id);
    ReadHeldPc(s, id, s.actors[id], c);
    MoveKeeps(s, id, ReadHeld(s, s.actors[id], c));
  }

  lemma ReadEarlyPc(s: State, id: nat, a: Actor)
    requires PcOk(s, a) && a.pc.Read? && !a.held && Rows(s) && a.u in s.rows
    ensures var a' := a.(row := s.rows[a.u], hasRow := true, pc := Begin);
      Successor(s, a, a') && PcOk(Become(s, id, a'), a')
  {
    var a' := a.(row := s.rows[a.u], hasRow := true, pc := Begin);
    assert RowShape(s.cfg, s.rows[a.u]);
    EarlyPc(Become(s, id, a'), a');
  }

  lemma ReadEarlyKeeps(s: State, id: nat)
    requires Inv(s) && id in s.actors && s.actors[id].pc.Read? && !s.actors[id].held
    ensures Inv(ReadEarly(s, id, s.actors[id]))
  {
    var a := s.actors[id];
    if a.u in s.rows {
      PcAt(s, id);
      ReadEarlyPc(s, id, a);
      MoveKeeps(s, id, a.(row := s.rows[a.u], hasRow := true, pc := Begin));
    } else {
      LeavePassive(s, id);
    }
  }

  lemma SnapExistsPc(s: State, id: nat, a: Actor)
    requires PcOk(s, a) && a.pc.SnapExists?
    ensures !a.held
    ensures a.sn !in s.snaps ==> Successor(s, a, a.(pc := Read)) && PcOk(Become(s, id, a.(pc := Read)), a.(pc := Read))
  {
    if a.sn !in s.snaps {
      EarlyPc(Become(s, id, a.(pc := Read)), a.(pc := Read));
    }
  }

  lemma SnapExistsKeeps(s: State, id: nat)
    requires Inv(s) && id in s.actors && s.actors[id].pc.SnapExists?
    ensures Inv(SnapExistsStep(s, id, s.actors[id]))
  {
    PcAt(s, id);
    SnapExistsPc(s, id, s.actors[id]);
    if s.actors[id].sn in s.snaps {
      LeavePassive(s, id);
    } else {
      MoveKeeps(s, id, s.actors[id].(pc := Read));
    }
  }

  lemma EndTokens(s: State, id: nat)
    requires Tokens(s) && Ids(s) && id in s.actors && s.actors[id].held
    ensures var s' := EndStep(s, id, s.actors[id]);
      && Tokens(s') && Ids(s') && Left(s, s', id) && (IsArchive(s.actors[id]) ==> id in s'.t.closed)
      && forall u :: u in s.t.owner && s.t.owner[u] != id ==> u in s'.t.owner && s'.t.owner[u] == s.t.owner[u]
  {
  }

  lemma EndKeeps(s: State, id: nat)
    requires Inv(s) && id in s.actors && s.actors[id].pc.End? && s.actors[id].held
    ensures Inv(EndStep(s, id, s.actors[id]))
  {
    EndTokens(s, id);
    LeftStep(s, EndStep(s, id, s.actors[id]), id);
  }
}
