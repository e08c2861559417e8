/** Every step of a careful run keeps the view without saves and harmless deletes in order. */
module CarefulRuns {
  import opened Options
  import opened OpTable
  import opened World
  import opened Invariant
  import opened Frames
  import opened Safety
  import opened EveryRun
  import opened Shapes
  import opened Erasure
  import opened MutedSaves
  import EnvSteps
  import TableSteps

  // ---------------------------------------------------------------- deletes that can do no more

  /** There is nothing cold to remove. */
  lemma NothingCold(s: State, a: Actor)
    requires Shaped(s) && RowColdOk(s.cfg, a.row) && Parked(s, a) && (a.pc.DeleteRecorded? || a.pc.DeleteCold?)
    ensures a.row.archived.None? && OnFiles(s.fs, RemoveColdDir(a.row.name)) == s.fs
  {
    assert forall p :: p in s.fs ==> PathColdOk(s.cfg, p);
  }

  lemma ParkedStep(s: State, id: nat, c: Pick)
    requires Shaped(s) && id in s.actors && Parked(s, s.actors[id]) && GoEnabled(s, s.actors[id], c)
    ensures var a' := s.actors[id].(pc := if s.actors[id].pc.DeleteRecorded? then DeleteCold else DeleteRow);
      GoStep(s, id, c) == Become(s, id, a') && Parked(s, a')
  {
    var a := s.actors[id];
    assert ShapeOk(s.cfg, a);
    NothingCold(s, a);
    InsideStep(s, id, c);
  }

  lemma ParkedMove(tidy: bool, s: State, id: nat, a': Actor)
    requires id in s.actors && Parked(s, s.actors[id]) && Shed(tidy, s, a') == Done(s.actors[id])
    ensures Erase(tidy, Become(s, id, a')) == Erase(tidy, s)
  {
    EraseMove(tidy, s, Become(s, id, a'), id);
    assert Erase(tidy, s).actors[id := Done(s.actors[id])] == Erase(tidy, s).actors;
  }

  lemma ParkedBlind(tidy: bool, s: State, id: nat, c: Pick)
    requires Blind(tidy, s) && Shaped(s) && id in s.actors && Parked(s, s.actors[id]) && GoEnabled(s, s.actors[id], c)
    ensures Blind(tidy, GoStep(s, id, c))
  {
    ParkedStep(s, id, c);
    ParkedMove(tidy, s, id, GoStep(s, id, c).actors[id]);
  }

  lemma GoBlind(tidy: bool, s: State, id: nat, c: Pick)
    requires Blind(tidy, s) && Core(s) && Shaped(s) && Pens(tidy, s) && id in s.actors && GoEnabled(s, s.actors[id], c)
    requires Minded(tidy, s, id)
    ensures Blind(tidy, GoStep(s, id, c))
  {
    assert ShapeOk(s.cfg, s.actors[id]);
    if Mute(tidy, s, s.actors[id]) {
      SaveBlind(tidy, s, id, c);
    } else if Parked(s, s.actors[id]) {
      ParkedBlind(tidy, s, id, c);
    } else {
      PlainBlind(tidy, s, id, c);
    }
  }

  // ---------------------------------------------------------------- the other steps

  lemma FailPlain(tidy: bool, s: State, a: Actor)
    requires Plain(tidy, s, a)
    ensures Plain(tidy, s, FailTo(a))
  {
  }

  function Failed(s: State, id: nat): State
    requires id in s.actors
  {
    if s.actors[id].held then Become(s, id, FailTo(s.actors[id])) else Leave(s, id)
  }

  lemma FailedKeeps(s: State, id: nat)
    requires Inv(s) && id in s.actors && CanFail(s.actors[id].pc)
    ensures Inv(Failed(s, id))
  {
    FailKeeps(s, id);
  }

  lemma FailErase(tidy: bool, s: State, id: nat)
    requires id in s.actors && Plain(tidy, s, s.actors[id])
    ensures id in Erase(tidy, s).actors && Erase(tidy, Failed(s, id)) == Failed(Erase(tidy, s), id)
  {
    PlainAt(tidy, s, id);
    if s.actors[id].held {
      FailPlain(tidy, s, s.actors[id]);
      EraseStay(tidy, s, Become(s, id, FailTo(s.actors[id])), id);
    } else {
      LeaveErase(tidy, s, id);
    }
  }

  lemma PlainFails(tidy: bool, s: State, id: nat)
    requires Blind(tidy, s) && id in s.actors && Plain(tidy, s, s.actors[id]) && CanFail(s.actors[id].pc)
    ensures Blind(tidy, Failed(s, id))
  {
    Seen(tidy, s);
    PlainAt(tidy, s, id);
    FailedKeeps(Erase(tidy, s), id);
    FailErase(tidy, s, id);
  }

  lemma FailSave(a: Actor)
    ensures FailTo(a).kind == a.kind && FailTo(a).u == a.u && FailTo(a).held == a.held
  {
  }

  lemma FailBlind(tidy: bool, s: State, id: nat)
    requires Blind(tidy, s) && Core(s) && Shaped(s) && id in s.actors && CanFail(s.actors[id].pc)
    ensures Blind(tidy, Failed(s, id))
  {
    var a := s.actors[id];
    CoreLocals(s, id);
    if Mute(tidy, s, a) && a.held {
      FailSave(a);
      QuietWork(tidy, s, id, FailTo(a));
    } else if Mute(tidy, s, a) {
      SaveLeaves(tidy, s, id);
    } else if Parked(s, a) {
      ParkedMove(tidy, s, id, Done(a));
    } else {
      PlainFails(tidy, s, id);
    }
  }

  lemma SpawnErase(tidy: bool, s: State, a: Actor)
    requires s.nextId !in s.actors
    ensures Erase(tidy, SpawnStep(s, a)) == SpawnStep(Erase(tidy, s), Shed(tidy, s, a))
  {
    assert Erase(tidy, SpawnStep(s, a)).actors == Erase(tidy, s).actors[s.nextId := Shed(tidy, s, a)];
  }

  lemma SpawnStub(e: State, u: Uuid)
    requires Inv(e)
    ensures Inv(SpawnStep(e, Stub(u, false)))
  {
    EnvSteps.SpawnTable(e, Stub(u, false));
    StubPc(SpawnStep(e, Stub(u, false)), Stub(u, false));
    EnvSteps.SpawnRest(e, Stub(u, false));
    EnvSteps.SpawnActors(e, Stub(u, false));
  }

  lemma SpawnBlind(tidy: bool, s: State, kind: Kind, u: Uuid, sn: string)
    requires Blind(tidy, s) && Ids(s)
    ensures Blind(tidy, SpawnStep(s, Request(kind, u, sn)))
  {
    Seen(tidy, s);
    SpawnErase(tidy, s, Request(kind, u, sn));
    if Mute(tidy, s, Request(kind, u, sn)) {
      SpawnStub(Erase(tidy, s), u);
    } else {
      EnvSteps.SpawnKeeps(Erase(tidy, s), kind, u, sn);
    }
  }

  lemma ExitBlind(tidy: bool, s: State, pid: nat)
    requires Blind(tidy, s) && pid in s.procs
    ensures Blind(tidy, s.(procs := s.procs - {pid}))
  {
    Seen(tidy, s);
    EnvSteps.ExitKeeps(Erase(tidy, s), pid);
    EraseSame(tidy, s, s.(procs := s.procs - {pid}));
  }

  lemma ReapBlind(tidy: bool, s: State, pid: nat)
    requires Blind(tidy, s) && pid in s.reapers && pid !in s.procs
    ensures Blind(tidy, SeeExit(s, pid)) && Blind(tidy, DropEntry(s, pid))
  {
    Seen(tidy, s);
    EnvSteps.SeeExitKeeps(Erase(tidy, s), pid);
    EnvSteps.DropEntryKeeps(Erase(tidy, s), pid);
    EraseSame(tidy, s, SeeExit(s, pid));
    EraseSame(tidy, s, DropEntry(s, pid));
  }

  lemma GuestWriteBlind(tidy: bool, s: State, pid: nat, data: Content)
    requires Blind(tidy, s) && pid in s.procs && s.procs[pid].attached
    ensures Blind(tidy, GuestWriteStep(s, pid, data))
  {
    Seen(tidy, s);
    EnvSteps.GuestWriteKeeps(Erase(tidy, s), pid, data);
    EraseSame(tidy, s, GuestWriteStep(s, pid, data));
  }

  lemma SetStateBlind(tidy: bool, s: State, u: Uuid, state: string)
    requires Blind(tidy, s) && u in s.rows
    ensures Blind(tidy, SetStateStep(s, u, state))
  {
    Seen(tidy, s);
    EnvSteps.SetStateKeeps(Erase(tidy, s), u, state);
    assert SetStateStep(s, u, state).rows.Keys == s.rows.Keys;
    EraseSame(tidy, s, SetStateStep(s, u, state));
  }

  /** An operation that is left in and carries a row has its VM, or can still remove its files. */
  lemma CarrierKnows(e: State, a: Actor)
    requires PcOk(e, a) && a.hasRow && (IsSave(a) ==> a.u in e.rows) && KindOk(a) && !Threat(e.cfg, a) && !Parked(e, a)
    ensures a.u in e.rows && e.rows[a.u].name == a.row.name
  {
  }

  lemma ShedCarrier(tidy: bool, s: State, a: Actor)
    requires Shed(tidy, s, a).hasRow
    ensures Shed(tidy, s, a) == a && Plain(tidy, s, a)
  {
  }

  lemma CreateAvoids(tidy: bool, s: State, u: Uuid, name: string, id: nat)
    requires Blind(tidy, s) && Shaped(s) && id in s.actors && Shed(tidy, s, s.actors[id]).hasRow
    requires forall v :: v in s.rows ==> s.rows[v].name != name
    requires Threat(s.cfg, s.actors[id]) ==> s.actors[id].row.name != name
    ensures s.actors[id].row.name != name
  {
    var a := s.actors[id];
    ShedCarrier(tidy, s, a);
    assert ShapeOk(s.cfg, a);
    if !Threat(s.cfg, a) {
      Seen(tidy, s);
      PlainAt(tidy, s, id);
      PcAt(Erase(tidy, s), id);
      CarrierKnows(Erase(tidy, s), a);
    }
  }

  lemma FreshErase(tidy: bool, s: State, u: Uuid)
    requires Fresh(s, u)
    ensures Fresh(Erase(tidy, s), u)
  {
  }

  lemma FreshShed(tidy: bool, s: State, s': State, u: Uuid, a: Actor)
    requires s'.cfg == s.cfg && s'.rows.Keys == s.rows.Keys + {u} && a.u != u
    ensures Shed(tidy, s', a) == Shed(tidy, s, a)
  {
  }

  lemma CreateErase(tidy: bool, s: State, u: Uuid, name: string, image: Option<Content>)
    requires Fresh(s, u)
    ensures Erase(tidy, CreateStep(s, u, name, image)) == CreateStep(Erase(tidy, s), u, name, image)
  {
    var s' := CreateStep(s, u, name, image);
    assert s'.rows.Keys == s.rows.Keys + {u};
    forall i | i in s.actors ensures Shed(tidy, s', s.actors[i]) == Shed(tidy, s, s.actors[i]) {
      FreshShed(tidy, s, s', u, s.actors[i]);
    }
    assert Erase(tidy, s').actors == Erase(tidy, s).actors;
  }

  lemma CreateBlind(tidy: bool, s: State, u: Uuid, name: string, image: Option<Content>)
    requires Blind(tidy, s) && Shaped(s) && Enabled(s, Create(u, name, image)) && Careful(s, Create(u, name, image))
    ensures Blind(tidy, CreateStep(s, u, name, image))
  {
    forall id | id in Erase(tidy, s).actors && Erase(tidy, s).actors[id].hasRow ensures Erase(tidy, s).actors[id].row.name != name {
      CreateAvoids(tidy, s, u, name, id);
      ShedCarrier(tidy, s, s.actors[id]);
    }
    Seen(tidy, s);
    FreshErase(tidy, s, u);
    EnvSteps.CreateKeeps(Erase(tidy, s), u, name, image);
    CreateErase(tidy, s, u, name, image);
  }

  lemma CrashBlind(tidy: bool, s: State)
    requires Blind(tidy, s)
    ensures Blind(tidy, CrashStep(s))
  {
    Seen(tidy, s);
    EnvSteps.CrashKeeps(Erase(tidy, s));
    assert Erase(tidy, CrashStep(s)) == CrashStep(Erase(tidy, s));
  }

  // ---------------------------------------------------------------- open snapshots

  lemma PenMove(s: State, s': State, id: nat)
    requires Pens(true, s) && id in s.actors && id in s'.actors && s'.actors == s.actors[id := s'.actors[id]]
    requires s'.snaps == s.snaps
    requires s'.actors[id].sn == s.actors[id].sn && (Writing(s'.actors[id]) ==> Writing(s.actors[id]) || MayOpen(s, id))
    ensures Pens(true, s')
  {
    forall i, j | i in s'.actors && j in s'.actors && OneFile(s'.actors[i], s'.actors[j]) ensures i == j {
      assert OneFile(s.actors[i], s.actors[j]) ==> i == j;
    }
  }

  lemma PenFewer(s: State, s': State)
    requires Pens(true, s) && s'.snaps == s.snaps
    requires forall i :: i in s'.actors && Writing(s'.actors[i]) ==> i in s.actors && s.actors[i] == s'.actors[i]
    ensures Pens(true, s')
  {
    forall i, j | i in s'.actors && j in s'.actors && OneFile(s'.actors[i], s'.actors[j]) ensures i == j {
      assert OneFile(s.actors[i], s.actors[j]);
    }
  }

  lemma PenInside(s: State, id: nat, c: Pick)
    requires Pens(true, s) && id in s.actors && Inside(s.actors[id].pc) && LocalsOk(s.actors[id]) && Guarded(s, id)
    ensures Pens(true, GoStep(s, id, c))
  {
    InsideStep(s, id, c);
    InsideOnward(s, s.actors[id], c);
    PenMove(s, GoStep(s, id, c), id);
  }

  /** The operation has not opened a snapshot, or leaves. */
  predicate Closed(s: State, s': State, id: nat) {
    && s'.snaps == s.snaps
    && (forall i :: i in s'.actors && i != id ==> i in s.actors && s'.actors[i] == s.actors[i])
    && (id in s'.actors ==> !Writing(s'.actors[id]))
  }

  lemma BecomeClosed(s: State, s': State, id: nat, a': Actor)
    requires s'.snaps == s.snaps && s'.actors == s.actors[id := a'] && !Writing(a')
    ensures Closed(s, s', id)
  {
  }

  lemma LeaveClosed(s: State, s': State, id: nat)
    requires s'.snaps == s.snaps && s'.actors == s.actors - {id}
    ensures Closed(s, s', id)
  {
  }

  lemma BeginClosed(s: State, id: nat, a: Actor, b: Begun)
    requires a.pc.Begin?
    ensures Closed(s, AfterBegin(s, id, a, b), id)
  {
    match b.outcome
    case Busy => LeaveClosed(s, AfterBegin(s, id, a, b), id);
    case WaitFor(arch) => BecomeClosed(s, AfterBegin(s, id, a, b), id, a.(pc := Wait, arch := arch));
    case Granted => BecomeClosed(s, AfterBegin(s, id, a, b), id, WithToken(a));
  }

  lemma ReadClosed(s: State, id: nat, a: Actor, c: Pick)
    requires a.pc.Read?
    ensures Closed(s, Become(s, id, ReadHeld(s, a, c)), id) && Closed(s, ReadEarly(s, id, a), id)
  {
    BecomeClosed(s, Become(s, id, ReadHeld(s, a, c)), id, ReadHeld(s, a, c));
    if a.u in s.rows {
      BecomeClosed(s, ReadEarly(s, id, a), id, a.(row := s.rows[a.u], hasRow := true, pc := Begin));
    } else {
      LeaveClosed(s, ReadEarly(s, id, a), id);
    }
  }

  lemma ExistsClosed(s: State, id: nat, a: Actor)
    ensures Closed(s, SnapExistsStep(s, id, a), id)
  {
    if a.sn in s.snaps {
      LeaveClosed(s, SnapExistsStep(s, id, a), id);
    } else {
      BecomeClosed(s, SnapExistsStep(s, id, a), id, a.(pc := Read));
    }
  }

  lemma EarlyClosed(s: State, id: nat, c: Pick)
    requires id in s.actors
    requires var pc := s.actors[id].pc; pc.Begin? || pc.Wait? || pc.Read? || pc.SnapExists? || pc.End?
    ensures Closed(s, GoStep(s, id, c), id)
  {
    var a := s.actors[id];
    EarlyStep(s, id, c);
    match a.pc
    case Begin => BeginClosed(s, id, a, TryBegin(s.t, a, id));
    case Wait => BecomeClosed(s, Become(s, id, a.(pc := Begin)), id, a.(pc := Begin));
    case Read => ReadClosed(s, id, a, c);
    case SnapExists => ExistsClosed(s, id, a);
    case End => LeaveClosed(s, EndStep(s, id, a), id);
  }

  lemma LaunchClosed(s: State, id: nat, a: Actor, resume: bool)
    ensures Closed(s, LaunchStep(s, id, a, resume), id) && Closed(s, RegisterStep(s, id, a), id)
  {
    BecomeClosed(s, LaunchStep(s, id, a, resume), id, a.(pc := Register, pid := s.nextPid, resume := resume));
    BecomeClosed(s, RegisterStep(s, id, a), id, a.(pc := Settle));
  }

  lemma DoneClosed(s: State, id: nat, a: Actor)
    ensures Closed(s, SettleStep(s, id, a), id) && Closed(s, DeleteRowStep(s, id, a), id)
  {
    BecomeClosed(s, SettleStep(s, id, a), id, Done(a));
    BecomeClosed(s, DeleteRowStep(s, id, a), id, Done(a));
  }

  lemma LateClosed(s: State, id: nat, c: Pick)
    requires id in s.actors && Late(s.actors[id].pc) && !s.actors[id].pc.SnapCommit?
    ensures Closed(s, GoStep(s, id, c), id)
  {
    var a := s.actors[id];
    LateStep(s, id, c);
    match a.pc
    case Launch => LaunchClosed(s, id, a, false);
    case ResumeLaunch => LaunchClosed(s, id, a, true);
    case Register => LaunchClosed(s, id, a, false);
    case Settle => DoneClosed(s, id, a);
    case DeleteRow => DoneClosed(s, id, a);
  }

  lemma PenCommit(s: State, id: nat)
    requires Pens(true, s) && id in s.actors && s.actors[id].pc.SnapCommit?
    ensures Pens(true, SnapCommitStep(s, id, s.actors[id]))
  {
    var s' := SnapCommitStep(s, id, s.actors[id]);
    forall i, j | i in s'.actors && j in s'.actors && OneFile(s'.actors[i], s'.actors[j]) ensures i == j {
      assert OneFile(s.actors[i], s.actors[j]) ==> i == j;
    }
    forall i | i in s'.actors && Writing(s'.actors[i]) ensures s'.actors[i].sn !in s'.snaps {
      assert OneFile(s.actors[i], s.actors[id]) ==> i == id;
    }
  }

  lemma PenGo(s: State, id: nat, c: Pick)
    requires Pens(true, s) && id in s.actors && LocalsOk(s.actors[id]) && Guarded(s, id)
    ensures Pens(true, GoStep(s, id, c))
  {
    var pc := s.actors[id].pc;
    if Inside(pc) {
      PenInside(s, id, c);
    } else if pc.SnapCommit? {
      LateStep(s, id, c);
      PenCommit(s, id);
    } else {
      if Late(pc) {
        LateClosed(s, id, c);
      } else {
        EarlyClosed(s, id, c);
      }
      PenFewer(s, GoStep(s, id, c));
    }
  }

  lemma PenFail(s: State, id: nat)
    requires Pens(true, s) && id in s.actors
    ensures Pens(true, Failed(s, id))
  {
    FailCloses(s.actors[id]);
    PenFewer(s, Failed(s, id));
  }

  lemma PenSpawn(s: State, kind: Kind, u: Uuid, sn: string)
    requires Pens(true, s)
    ensures Pens(true, SpawnStep(s, Request(kind, u, sn)))
  {
    PenFewer(s, SpawnStep(s, Request(kind, u, sn)));
  }

  lemma PenSame(s: State, s': State)
    requires Pens(true, s) && s'.actors == s.actors && s'.snaps == s.snaps
    ensures Pens(true, s')
  {
  }

  lemma PenReap(s: State, pid: nat)
    requires Pens(true, s) && pid in s.reapers
    ensures Pens(true, SeeExit(s, pid)) && Pens(true, DropEntry(s, pid))
  {
    PenSame(s, SeeExit(s, pid));
    PenSame(s, DropEntry(s, pid));
  }

  lemma PenWrite(s: State, pid: nat, data: Content)
    requires Pens(true, s) && pid in s.procs
    ensures Pens(true, GuestWriteStep(s, pid, data)) && Pens(true, s.(procs := s.procs - {pid}))
  {
    PenSame(s, GuestWriteStep(s, pid, data));
    PenSame(s, s.(procs := s.procs - {pid}));
  }

  lemma PenRow(s: State, u: Uuid, state: string)
    requires Pens(true, s) && u in s.rows
    ensures Pens(true, SetStateStep(s, u, state))
  {
    PenSame(s, SetStateStep(s, u, state));
  }

  lemma PenCreate(s: State, u: Uuid, name: string, image: Option<Content>)
    requires Pens(true, s)
    ensures Pens(true, CreateStep(s, u, name, image)) && Pens(true, CrashStep(s))
  {
    PenSame(s, CreateStep(s, u, name, image));
  }

  lemma PenEnv(s: State, l: Label)
    requires Pens(true, s) && Enabled(s, l) && !l.Go? && !l.Fail?
    ensures Pens(true, Apply(s, l))
  {
    match l
    case Spawn(kind, u, sn) => PenSpawn(s, kind, u, sn);
    case Exit(pid) => PenWrite(s, pid, []);
    case GuestWrite(pid, data) => PenWrite(s, pid, data);
    case Reap(pid) => PenReap(s, pid);
    case SetState(u, state) => PenRow(s, u, state);
    case Create(u, name, image) => PenCreate(s, u, name, image);
    case Crash => PenCreate(s, "", "", None);
  }

  lemma StepPens(tidy: bool, s: State, l: Label)
    requires Pens(tidy, s) && ActorsOk(s) && Enabled(s, l) && (tidy ==> Tidy(s, l))
    ensures Pens(tidy, Apply(s, l))
  {
    if tidy {
      if l.Go? {
        CoreLocals(s, l.id);
        PenGo(s, l.id, l.pick);
      } else if l.Fail? {
        PenFail(s, l.id);
      } else {
        PenEnv(s, l);
      }
    }
  }

  // ---------------------------------------------------------------- every step

  lemma DataBlind(tidy: bool, s: State, l: Label)
    requires Blind(tidy, s) && Enabled(s, l) && (l.Exit? || l.GuestWrite? || l.Reap? || l.SetState?)
    ensures Blind(tidy, Apply(s, l))
  {
    match l
    case Exit(pid) => ExitBlind(tidy, s, pid);
    case GuestWrite(pid, data) => GuestWriteBlind(tidy, s, pid, data);
    case Reap(pid) => ReapBlind(tidy, s, pid);
    case SetState(u, state) => SetStateBlind(tidy, s, u, state);
  }

  /** Every careful step keeps the erased state in order. */
  lemma StepBlind(tidy: bool, s: State, l: Label)
    requires Blind(tidy, s) && Core(s) && Shaped(s) && Pens(tidy, s) && Enabled(s, l) && Careful(s, l)
    requires (tidy ==> Tidy(s, l))
    ensures Blind(tidy, Apply(s, l))
  {
    match l
    case Spawn(kind, u, sn) => SpawnBlind(tidy, s, kind, u, sn);
    case Go(id, c) => GoBlind(tidy, s, id, c);
    case Fail(id) => FailBlind(tidy, s, id);
    case Exit(_) => DataBlind(tidy, s, l);
    case GuestWrite(_, _) => DataBlind(tidy, s, l);
    case Reap(_) => DataBlind(tidy, s, l);
    case SetState(_, _) => DataBlind(tidy, s, l);
    case Create(u, name, image) => CreateBlind(tidy, s, u, name, image);
    case Crash => CrashBlind(tidy, s);
  }

  // ---------------------------------------------------------------- whole runs

  /** What every state of a careful run keeps. */
  ghost predicate Safe(tidy: bool, s: State) {
    Core(s) && Shaped(s) && Pens(tidy, s) && Blind(tidy, s)
  }

  lemma StepSafe(tidy: bool, s: State, l: Label)
    requires Safe(tidy, s) && Enabled(s, l) && Careful(s, l) && (tidy ==> Tidy(s, l))
    ensures Safe(tidy, Apply(s, l))
  {
    StepSound(s, l);
    StepShapes(s, l);
    ShapeStepKeeps(s, Apply(s, l));
    StepPens(tidy, s, l);
    StepBlind(tidy, s, l);
  }

  lemma {:induction false} RunSafe(tidy: bool, s: State, ls: seq<Label>)
    requires Safe(tidy, s) && Executable(s, ls) && CarefulRun(tidy, s, ls)
    ensures Safe(tidy, Run(s, ls))
    decreases |ls|
  {
    if ls != [] {
      StepSafe(tidy, s, ls[0]);
      RunSafe(tidy, Apply(s, ls[0]), ls[1..]);
    }
  }

  /** The state is reached from an empty host by a run whose creates are careful; with `tidy`, its saves are, too. */
  ghost predicate Reachable(tidy: bool, s: State) {
    exists cfg, ls :: Executable(Init(cfg), ls) && CarefulRun(tidy, Init(cfg), ls) && Run(Init(cfg), ls) == s
  }

  lemma InitSafe(tidy: bool, cfg: Config)
    ensures Safe(tidy, Init(cfg))
  {
    assert Erase(tidy, Init(cfg)) == Init(cfg);
  }

  lemma ReachableSafe(tidy: bool, s: State)
    requires Reachable(tidy, s)
    ensures Safe(tidy, s)
  {
    var cfg, ls :| Executable(Init(cfg), ls) && CarefulRun(tidy, Init(cfg), ls) && Run(Init(cfg), ls) == s;
    InitSafe(tidy, cfg);
    RunSafe(tidy, Init(cfg), ls);
  }

  lemma {:induction false} TidyIsCareful(s: State, ls: seq<Label>)
    requires Executable(s, ls) && CarefulRun(true, s, ls)
    ensures CarefulRun(false, s, ls)
    decreases |ls|
  {
    if ls != [] {
      TidyIsCareful(Apply(s, ls[0]), ls[1..]);
    }
  }

  lemma TidyReachable(s: State)
    requires Reachable(true, s)
    ensures Reachable(false, s)
  {
    var cfg, ls :| Executable(Init(cfg), ls) && CarefulRun(true, Init(cfg), ls) && Run(Init(cfg), ls) == s;
    TidyIsCareful(Init(cfg), ls);
  }

  lemma ReachableRun(tidy: bool, s: State, ms: seq<Label>)
    requires Reachable(tidy, s) && Executable(s, ms) && CarefulRun(tidy, s, ms)
    ensures Reachable(tidy, Run(s, ms))
  {
    var cfg, ls :| Executable(Init(cfg), ls) && CarefulRun(tidy, Init(cfg), ls) && Run(Init(cfg), ls) == s;
    RunAppend(Init(cfg), ls, ms);
  }

  lemma ReachableReached(tidy: bool, s: State)
    requires Reachable(tidy, s)
    ensures Reached(s)
  {
    var cfg, ls :| Executable(Init(cfg), ls) && CarefulRun(tidy, Init(cfg), ls) && Run(Init(cfg), ls) == s;
  }
}
