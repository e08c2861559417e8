/**
What every run keeps about the operations themselves: which kind of operation is at which
program counter, where its copies read, and that a host without cold archiving has nothing cold.
*/
module Shapes {
  import opened Options
  import opened OpTable
  import opened World
  import opened Invariant
  import opened Safety
  import opened EveryRun

  /** The program counters that all operations share. */
  predicate Shared(pc: Pc) {
    pc.Begin? || pc.Wait? || pc.Read? || pc.End?
  }

  /** Each other program counter belongs to one kind of operation. */
  function KindOf(pc: Pc): Kind {
    match pc
    case ArchiveCheck => ArchiveStoppedVM
    case ArchiveStat => ArchiveStoppedVM
    case ArchiveTmp => ArchiveStoppedVM
    case ArchiveCopy => ArchiveStoppedVM
    case ArchiveConfirm => ArchiveStoppedVM
    case ArchiveDropOld => ArchiveStoppedVM
    case ArchiveRename => ArchiveStoppedVM
    case ArchiveRecord => ArchiveStoppedVM
    case ArchiveDropHot => ArchiveStoppedVM
    case ArchiveCleanup => ArchiveStoppedVM
    case DeleteCheck => DeleteVM
    case DeleteStop => DeleteVM
    case DeleteHot => DeleteVM
    case DeleteRecorded => DeleteVM
    case DeleteCold => DeleteVM
    case DeleteRow => DeleteVM
    case SnapExists => SaveSnapshot
    case SnapCheck => SaveSnapshot
    case SnapResolve => SaveSnapshot
    case SnapOpen => SaveSnapshot
    case SnapCopy => SaveSnapshot
    case SnapCommit => SaveSnapshot
    case _ => StartVM
  }

  predicate KindOk(a: Actor) {
    Shared(a.pc) || a.kind == KindOf(a.pc)
  }

  /** A copy reads a disk, never the file that it writes. */
  predicate SourceShape(a: Actor) {
    a.pc.HydrateTmp? || a.pc.HydrateCopy? || a.pc.SnapOpen? || a.pc.SnapCopy? ==> a.src.Hot? || a.src.Cold?
  }

  predicate RowColdOk(cfg: Config, row: Row) {
    row.archived.Some? ==> row.archived.value.Cold? && Active(cfg)
  }

  predicate ShapeOk(cfg: Config, a: Actor) {
    KindOk(a) && SourceShape(a) && RowColdOk(cfg, a.row) && (IsArchive(a) ==> Active(cfg))
  }

  predicate PathColdOk(cfg: Config, p: Path) {
    p.Cold? || p.ColdTmp? ==> Active(cfg)
  }

  ghost predicate Shaped(s: State) {
    && (forall u :: u in s.rows ==> RowColdOk(s.cfg, s.rows[u]))
    && (forall id :: id in s.actors ==> ShapeOk(s.cfg, s.actors[id]))
    && (forall p :: p in s.fs ==> PathColdOk(s.cfg, p))
  }

  // ---------------------------------------------------------------- steps inside a VM

  predicate FileColdOk(cfg: Config, op: FileOp) {
    (op.Write? ==> PathColdOk(cfg, op.p)) && (op.Rename? ==> PathColdOk(cfg, op.to))
  }

  predicate EffectShape(cfg: Config, e: Effect) {
    && ShapeOk(cfg, e.a) && FileColdOk(cfg, e.file)
    && (e.archived.Some? && e.archived.value.Some? ==> e.archived.value.value.Cold? && Active(cfg))
  }

  /** An operation under its token. */
  predicate Shape(cfg: Config, a: Actor) {
    ShapeOk(cfg, a) && LocalsOk(a)
  }

  lemma ArchiveCheckShape(s: State, a: Actor, c: Pick)
    requires a.pc.ArchiveCheck? && Shape(s.cfg, a)
    ensures EffectShape(s.cfg, EffectOf(s, a, c))
  {
  }

  lemma ArchiveStatShape(s: State, a: Actor, c: Pick)
    requires a.pc.ArchiveStat? && Shape(s.cfg, a)
    ensures EffectShape(s.cfg, EffectOf(s, a, c))
  {
  }

  lemma ArchiveConfirmShape(s: State, a: Actor, c: Pick)
    requires a.pc.ArchiveConfirm? && Shape(s.cfg, a)
    ensures EffectShape(s.cfg, EffectOf(s, a, c))
  {
  }

  lemma DeleteCheckShape(s: State, a: Actor, c: Pick)
    requires a.pc.DeleteCheck? && Shape(s.cfg, a)
    ensures EffectShape(s.cfg, EffectOf(s, a, c))
  {
  }

  lemma DeleteStopShape(s: State, a: Actor, c: Pick)
    requires a.pc.DeleteStop? && Shape(s.cfg, a)
    ensures EffectShape(s.cfg, EffectOf(s, a, c))
  {
  }

  lemma SnapCheckShape(s: State, a: Actor, c: Pick)
    requires a.pc.SnapCheck? && Shape(s.cfg, a)
    ensures EffectShape(s.cfg, EffectOf(s, a, c))
  {
  }

  lemma CheckingShape(s: State, a: Actor, c: Pick)
    requires Checking(a.pc) && Shape(s.cfg, a)
    ensures EffectShape(s.cfg, EffectOf(s, a, c))
  {
    match a.pc
    case ArchiveCheck => ArchiveCheckShape(s, a, c);
    case ArchiveStat => ArchiveStatShape(s, a, c);
    case ArchiveConfirm => ArchiveConfirmShape(s, a, c);
    case DeleteCheck => DeleteCheckShape(s, a, c);
    case DeleteStop => DeleteStopShape(s, a, c);
    case SnapCheck => SnapCheckShape(s, a, c);
  }

  lemma HydratingShape(s: State, a: Actor, c: Pick)
    requires Hydrating(a.pc) && Shape(s.cfg, a)
    ensures EffectShape(s.cfg, EffectOf(s, a, c))
  {
    match a.pc
    case HydrateStat =>
    case HydrateClear =>
    case HydrateDropStale =>
    case HydrateTmp =>
    case HydrateCopy =>
    case HydrateRename =>
    case HydrateForget =>
    case HydrateDropCold =>
    case HydrateCleanup =>
  }

  lemma PreparingShape(s: State, a: Actor, c: Pick)
    requires Preparing(a.pc) && Shape(s.cfg, a)
    ensures EffectShape(s.cfg, EffectOf(s, a, c))
  {
  }

  lemma ArchivingShape(s: State, a: Actor, c: Pick)
    requires Archiving(a.pc) && Shape(s.cfg, a)
    ensures EffectShape(s.cfg, EffectOf(s, a, c))
  {
  }

  lemma ArchiveEndingShape(s: State, a: Actor, c: Pick)
    requires ArchiveEnding(a.pc) && Shape(s.cfg, a)
    ensures EffectShape(s.cfg, EffectOf(s, a, c))
  {
  }

  lemma DeletingShape(s: State, a: Actor, c: Pick)
    requires Deleting(a.pc) && Shape(s.cfg, a)
    ensures EffectShape(s.cfg, EffectOf(s, a, c))
  {
  }

  lemma SavingShape(s: State, a: Actor, c: Pick)
    requires Saving(a.pc) && Shape(s.cfg, a)
    ensures EffectShape(s.cfg, EffectOf(s, a, c))
  {
  }

  lemma InsideShape(s: State, a: Actor, c: Pick)
    requires Inside(a.pc) && Shape(s.cfg, a)
    ensures EffectShape(s.cfg, EffectOf(s, a, c))
  {
    if Checking(a.pc) {
      CheckingShape(s, a, c);
    } else if Hydrating(a.pc) {
      HydratingShape(s, a, c);
    } else if Preparing(a.pc) {
      PreparingShape(s, a, c);
    } else if Archiving(a.pc) {
      ArchivingShape(s, a, c);
    } else if ArchiveEnding(a.pc) {
      ArchiveEndingShape(s, a, c);
    } else if Deleting(a.pc) {
      DeletingShape(s, a, c);
    } else {
      SavingShape(s, a, c);
    }
  }

  // ---------------------------------------------------------------- all steps

  /** What is new after the step has its shape. */
  ghost predicate ShapeStep(s: State, s': State) {
    && s'.cfg == s.cfg
    && (forall u :: u in s'.rows ==> (u in s.rows && s'.rows[u].archived == s.rows[u].archived) || RowColdOk(s.cfg, s'.rows[u]))
    && (forall id :: id in s'.actors ==> (id in s.actors && s'.actors[id] == s.actors[id]) || ShapeOk(s.cfg, s'.actors[id]))
    && (forall p :: p in s'.fs ==> p in s.fs || PathColdOk(s.cfg, p))
  }

  /** `ShapeStep`, as one fact: the solver does not look inside until it is asked to. */
  ghost predicate Follows(s: State, s': State) {
    forall x :: x == s' ==> ShapeStep(s, x)
  }

  lemma ShapeStepKeeps(s: State, s': State)
    requires Shaped(s) && Follows(s, s')
    ensures Shaped(s')
  {
    assert ShapeStep(s, s');
  }

  lemma PerformShape(s: State, id: nat, e: Effect)
    requires EffectShape(s.cfg, e)
    ensures ShapeStep(s, Perform(s, id, e))
  {
  }

  lemma InsideShapeStep(s: State, id: nat, c: Pick)
    requires id in s.actors && Shape(s.cfg, s.actors[id]) && Inside(s.actors[id].pc)
    ensures ShapeStep(s, GoStep(s, id, c))
  {
    InsideShape(s, s.actors[id], c);
    PerformShape(s, id, EffectOf(s, s.actors[id], c));
    InsideStep(s, id, c);
  }

  lemma BecomeShape(s: State, s': State, id: nat, a': Actor)
    requires s'.cfg == s.cfg && s'.rows == s.rows && s'.fs == s.fs && s'.actors == s.actors[id := a']
    requires ShapeOk(s.cfg, a')
    ensures ShapeStep(s, s')
  {
  }

  lemma LeaveShape(s: State, s': State, id: nat)
    requires s'.cfg == s.cfg && s'.rows == s.rows && s'.fs == s.fs && s'.actors == s.actors - {id}
    ensures ShapeStep(s, s')
  {
  }

  lemma BeginShape(s: State, id: nat, a: Actor, b: Begun)
    requires Shape(s.cfg, a) && a.pc.Begin? && (a.kind == ArchiveStoppedVM ==> Active(s.cfg))
    ensures ShapeStep(s, AfterBegin(s, id, a, b))
  {
    match b.outcome
    case Busy => LeaveShape(s, AfterBegin(s, id, a, b), id);
    case WaitFor(arch) => BecomeShape(s, AfterBegin(s, id, a, b), id, a.(pc := Wait, arch := arch));
    case Granted => BecomeShape(s, AfterBegin(s, id, a, b), id, WithToken(a));
  }

  lemma ReadHeldShape(s: State, a: Actor, c: Pick)
    requires Shape(s.cfg, a) && (a.u in s.rows ==> RowColdOk(s.cfg, s.rows[a.u])) && a.pc.Read? && a.held
    ensures ShapeOk(s.cfg, ReadHeld(s, a, c))
  {
  }

  lemma ReadEarlyShape(s: State, id: nat, a: Actor)
    requires Shape(s.cfg, a) && (a.u in s.rows ==> RowColdOk(s.cfg, s.rows[a.u])) && a.pc.Read? && !a.held
    ensures ShapeStep(s, ReadEarly(s, id, a))
  {
    if a.u in s.rows {
      BecomeShape(s, ReadEarly(s, id, a), id, a.(row := s.rows[a.u], hasRow := true, pc := Begin));
    } else {
      LeaveShape(s, ReadEarly(s, id, a), id);
    }
  }

  lemma ReadShape(s: State, id: nat, c: Pick)
    requires Shaped(s) && id in s.actors && LocalsOk(s.actors[id]) && s.actors[id].pc.Read?
    ensures ShapeStep(s, GoStep(s, id, c))
  {
    var a := s.actors[id];
    EarlyStep(s, id, c);
    if a.held {
      ReadHeldShape(s, a, c);
      BecomeShape(s, GoStep(s, id, c), id, ReadHeld(s, a, c));
    } else {
      ReadEarlyShape(s, id, a);
    }
  }

  lemma SnapExistsShape(s: State, id: nat, a: Actor)
    requires Shape(s.cfg, a) && a.pc.SnapExists?
    ensures ShapeStep(s, SnapExistsStep(s, id, a))
  {
    if a.sn in s.snaps {
      LeaveShape(s, SnapExistsStep(s, id, a), id);
    } else {
      BecomeShape(s, SnapExistsStep(s, id, a), id, a.(pc := Read));
    }
  }

  lemma EarlyShapeStep(s: State, id: nat, c: Pick)
    requires Shaped(s) && id in s.actors && LocalsOk(s.actors[id]) && GoEnabled(s, s.actors[id], c)
    requires var pc := s.actors[id].pc; pc.Begin? || pc.Wait? || pc.Read? || pc.SnapExists? || pc.End?
    ensures Follows(s, GoStep(s, id, c))
  {
    var a := s.actors[id];
    EarlyStep(s, id, c);
    match a.pc
    case Begin => BeginShape(s, id, a, TryBegin(s.t, a, id));
    case Wait => BecomeShape(s, GoStep(s, id, c), id, a.(pc := Begin));
    case Read => ReadShape(s, id, c);
    case SnapExists => SnapExistsShape(s, id, a);
    case End => LeaveShape(s, GoStep(s, id, c), id);
  }

  lemma LaunchShape(s: State, id: nat, a: Actor, resume: bool)
    requires ShapeOk(s.cfg, a) && (a.pc.Launch? || a.pc.ResumeLaunch?)
    ensures ShapeStep(s, LaunchStep(s, id, a, resume))
  {
    BecomeShape(s, LaunchStep(s, id, a, resume), id, a.(pc := Register, pid := s.nextPid, resume := resume));
  }

  lemma RegisterShape(s: State, id: nat, a: Actor)
    requires ShapeOk(s.cfg, a) && a.pc.Register?
    ensures ShapeStep(s, RegisterStep(s, id, a))
  {
    BecomeShape(s, RegisterStep(s, id, a), id, a.(pc := Settle));
  }

  lemma DoneShape(cfg: Config, a: Actor)
    requires ShapeOk(cfg, a)
    ensures ShapeOk(cfg, Done(a))
  {
  }

  lemma SettleShape(s: State, id: nat, a: Actor)
    requires ShapeOk(s.cfg, a)
    ensures ShapeStep(s, SettleStep(s, id, a)) && ShapeStep(s, SnapCommitStep(s, id, a))
  {
    DoneShape(s.cfg, a);
    BecomeShape(s, SettleStep(s, id, a), id, Done(a));
    BecomeShape(s, SnapCommitStep(s, id, a), id, Done(a));
  }

  lemma DeleteRowShape(s: State, id: nat, a: Actor)
    requires ShapeOk(s.cfg, a)
    ensures ShapeStep(s, DeleteRowStep(s, id, a))
  {
    DoneShape(s.cfg, a);
  }

  lemma LateShapeStep(s: State, id: nat, c: Pick)
    requires id in s.actors && ShapeOk(s.cfg, s.actors[id]) && Late(s.actors[id].pc)
    ensures Follows(s, GoStep(s, id, c))
  {
    var a := s.actors[id];
    LateStep(s, id, c);
    match a.pc
    case Launch => LaunchShape(s, id, a, false);
    case ResumeLaunch => LaunchShape(s, id, a, true);
    case Register => RegisterShape(s, id, a);
    case Settle => SettleShape(s, id, a);
    case DeleteRow => DeleteRowShape(s, id, a);
    case SnapCommit => SettleShape(s, id, a);
  }

  lemma GoShapeStep(s: State, id: nat, c: Pick)
    requires Shaped(s) && id in s.actors && LocalsOk(s.actors[id]) && GoEnabled(s, s.actors[id], c)
    ensures Follows(s, GoStep(s, id, c))
  {
    var pc := s.actors[id].pc;
    if Inside(pc) {
      InsideShapeStep(s, id, c);
    } else if pc.Begin? || pc.Wait? || pc.Read? || pc.SnapExists? || pc.End? {
      EarlyShapeStep(s, id, c);
    } else {
      LateShapeStep(s, id, c);
    }
  }

  lemma FailToShape(cfg: Config, a: Actor)
    requires ShapeOk(cfg, a)
    ensures ShapeOk(cfg, FailTo(a))
  {
  }

  lemma FailShape(s: State, id: nat)
    requires id in s.actors && ShapeOk(s.cfg, s.actors[id])
    ensures ShapeStep(s, if s.actors[id].held then Become(s, id, FailTo(s.actors[id])) else Leave(s, id))
  {
    if s.actors[id].held {
      FailToShape(s.cfg, s.actors[id]);
      BecomeShape(s, Become(s, id, FailTo(s.actors[id])), id, FailTo(s.actors[id]));
    } else {
      LeaveShape(s, Leave(s, id), id);
    }
  }

  lemma SpawnShape(s: State, kind: Kind, u: Uuid, sn: string)
    ensures ShapeStep(s, SpawnStep(s, Request(kind, u, sn)))
  {
    BecomeShape(s, SpawnStep(s, Request(kind, u, sn)), s.nextId, Request(kind, u, sn));
  }

  lemma ExitShape(s: State, pid: nat)
    ensures ShapeStep(s, s.(procs := s.procs - {pid}))
  {
  }

  lemma WriteShape(s: State, pid: nat, data: Content)
    requires pid in s.procs
    ensures ShapeStep(s, GuestWriteStep(s, pid, data))
  {
  }

  lemma ReapShape(s: State, pid: nat)
    requires pid in s.reapers
    ensures ShapeStep(s, SeeExit(s, pid)) && ShapeStep(s, DropEntry(s, pid))
  {
  }

  lemma SetStateShape(s: State, u: Uuid, state: string)
    requires u in s.rows
    ensures ShapeStep(s, SetStateStep(s, u, state))
  {
  }

  lemma CreateShape(s: State, u: Uuid, name: string, image: Option<Content>)
    ensures ShapeStep(s, CreateStep(s, u, name, image))
  {
  }

  lemma CrashShape(s: State)
    ensures ShapeStep(s, CrashStep(s))
  {
  }

  lemma StepShapes(s: State, l: Label)
    requires Shaped(s) && ActorsOk(s) && Enabled(s, l)
    ensures Follows(s, Apply(s, l))
  {
    match l
    case Spawn(kind, u, sn) => SpawnShape(s, kind, u, sn);
    case Go(id, c) =>
      CoreLocals(s, id);
      GoShapeStep(s, id, c);
    case Fail(id) => FailShape(s, id);
    case Exit(pid) => ExitShape(s, pid);
    case GuestWrite(pid, data) => WriteShape(s, pid, data);
    case Reap(pid) => ReapShape(s, pid);
    case SetState(u, state) => SetStateShape(s, u, state);
    case Create(u, name, image) => CreateShape(s, u, name, image);
    case Crash => CrashShape(s);
  }

  lemma {:induction false} RunShapes(s: State, ls: seq<Label>)
    requires Core(s) && Shaped(s) && Executable(s, ls)
    ensures Shaped(Run(s, ls))
    decreases |ls|
  {
    if ls != [] {
      StepSound(s, ls[0]);
      StepShapes(s, ls[0]);
      ShapeStepKeeps(s, Apply(s, ls[0]));
      RunShapes(Apply(s, ls[0]), ls[1..]);
    }
  }

  lemma ReachedShapes(s: State)
    requires Reached(s)
    ensures Shaped(s)
  {
    var cfg, ls :| Executable(Init(cfg), ls) && Run(Init(cfg), ls) == s;
    RunShapes(Init(cfg), ls);
  }
}
