/**
No token is held for ever: from every state of every run, the holder of a token, the exit
of its VM's process and that process's reaper are enough to give the token back.
*/
module Progress {
  import opened Options
  import opened OpTable
  import opened World
  import opened Invariant
  import opened Safety
  import opened EveryRun
  import opened Shapes

  // ---------------------------------------------------------------- one step nearer to the end

  /** No choice of the environment lets the operation take its next step. */
  ghost predicate Refused(s: State, a: Actor) {
    forall c :: !GoEnabled(s, a, c)
  }

  /** The holder goes on, or gives up because it cannot; a delete that stops its VM waits for the exit and the reaper. */
  ghost predicate Natural(s: State, l: Label, id: nat)
    requires id in s.actors
  {
    var a := s.actors[id];
    match l
    case Go(i, _) => i == id
    case Fail(i) => i == id && !a.pc.DeleteStop? && Refused(s, a)
    case Exit(pid) => a.pc.DeleteStop? && pid in s.procs && s.procs[pid].u == a.u
    case Reap(pid) => a.pc.DeleteStop? && pid in s.reapers && s.reapers[pid].u == a.u
    case _ => false
  }

  ghost predicate NaturalRun(s: State, ls: seq<Label>, id: nat)
    requires Executable(s, ls)
    decreases |ls|
  {
    ls == [] || (id in s.actors && Natural(s, ls[0], id) && NaturalRun(Apply(s, ls[0]), ls[1..], id))
  }

  /** How many phases an operation has before it at most. */
  function Rank(pc: Pc): nat {
    match pc
    case End => 1
    case HydrateCleanup => 2 case ArchiveCleanup => 2
    case Settle => 3 case Register => 4 case Launch => 5 case ResumeLaunch => 5
    case Edit => 6 case Fill => 7 case Ensure => 8
    case HydrateDropStale => 9 case HydrateDropCold => 9 case HydrateForget => 10 case HydrateRename => 11
    case HydrateCopy => 12 case HydrateTmp => 13 case HydrateClear => 13 case HydrateStat => 14
    case ArchiveDropHot => 3 case ArchiveRecord => 4 case ArchiveRename => 5 case ArchiveDropOld => 6
    case ArchiveConfirm => 7 case ArchiveCopy => 8 case ArchiveTmp => 9 case ArchiveStat => 10 case ArchiveCheck => 11
    case DeleteRow => 2 case DeleteCold => 3 case DeleteRecorded => 4 case DeleteHot => 5 case DeleteStop => 6 case DeleteCheck => 7
    case SnapCommit => 2 case SnapCopy => 3 case SnapOpen => 4 case SnapResolve => 5 case SnapCheck => 6
    case Read => 15 case Begin => 16 case Wait => 16 case SnapExists => 16
  }

  function Todo(from: Content, i: nat): nat {
    if i < |from| then |from| - i else 0
  }

  /** How far a process is from the end of its reaper. */
  function Stages(s: State, u: Uuid): nat {
    if u !in s.t.running then 0
    else if s.t.running[u] in s.procs then 3
    else if s.t.running[u] in s.reapers && !s.reapers[s.t.running[u]].exited then 2
    else 1
  }

  /** What is left to do in the present phase. */
  function Left(s: State, a: Actor): nat {
    match a.pc
    case HydrateCopy => Todo(At(s.fs, a.src), a.i)
    case ArchiveCopy => Todo(At(s.fs, Hot(a.row.name)), a.i)
    case SnapCopy => Todo(At(s.fs, a.src), a.i)
    case DeleteStop => Stages(s, a.u)
    case _ => 0
  }

  /** The holder is still there, and nearer to the end. */
  predicate Nearer(s: State, s': State, id: nat) {
    && id in s.actors && id in s'.actors
    && var a, a' := s.actors[id], s'.actors[id];
       && a'.held && a'.u == a.u
       && (Rank(a'.pc) < Rank(a.pc) || (a'.pc == a.pc && Left(s', a') < Left(s, a)))
  }

  predicate Freed(s': State, id: nat, u: Uuid) {
    id !in s'.actors && u !in s'.t.owner
  }

  /** The next step is one block of a copy. */
  predicate Block(s: State, a: Actor) {
    && (a.pc.HydrateCopy? || a.pc.ArchiveCopy? || a.pc.SnapCopy?)
    && a.i < |At(s.fs, if a.pc.ArchiveCopy? then Hot(a.row.name) else a.src)|
    && (a.pc.ArchiveCopy? ==> !Canceled(s.t, a.u))
  }

  lemma CheckingRank(s: State, a: Actor, c: Pick)
    requires Checking(a.pc)
    ensures Rank(EffectOf(s, a, c).a.pc) < Rank(a.pc)
  {
    CheckingTargets(s, a, c);
  }

  lemma CheckingTargets(s: State, a: Actor, c: Pick)
    requires Checking(a.pc)
    ensures var pc := EffectOf(s, a, c).a.pc;
      match a.pc
      case ArchiveCheck => pc.ArchiveStat? || pc.End?
      case ArchiveStat => pc.ArchiveTmp? || pc.End?
      case ArchiveConfirm => pc.ArchiveDropOld? || pc.ArchiveCleanup?
      case DeleteCheck => pc.DeleteStop? || pc.DeleteHot?
      case DeleteStop => pc.DeleteHot?
      case _ => pc.SnapResolve? || pc.End?
  {
  }

  lemma HydratingRank(s: State, a: Actor, c: Pick)
    requires Hydrating(a.pc) && !Block(s, a)
    ensures Rank(EffectOf(s, a, c).a.pc) < Rank(a.pc)
  {
    match a.pc
    case HydrateStat =>
    case HydrateClear =>
    case HydrateDropStale =>
    case HydrateTmp =>
    case HydrateCopy =>
    case HydrateRename =>
    case HydrateForget =>
    case HydrateDropCold =>
    case HydrateCleanup =>
  }

  lemma PreparingRank(s: State, a: Actor, c: Pick)
    requires Preparing(a.pc) && !c.yes
    ensures Rank(EffectOf(s, a, c).a.pc) < Rank(a.pc)
  {
    match a.pc
    case Ensure =>
    case Fill =>
    case Edit =>
  }

  lemma ArchivingRank(s: State, a: Actor, c: Pick)
    requires Archiving(a.pc) && !Block(s, a)
    ensures Rank(EffectOf(s, a, c).a.pc) < Rank(a.pc)
  {
    match a.pc
    case ArchiveTmp =>
    case ArchiveCopy =>
    case ArchiveDropOld =>
    case ArchiveRename =>
  }

  lemma ArchiveEndingRank(s: State, a: Actor, c: Pick)
    requires ArchiveEnding(a.pc)
    ensures Rank(EffectOf(s, a, c).a.pc) < Rank(a.pc)
  {
    match a.pc
    case ArchiveRecord =>
    case ArchiveDropHot =>
    case ArchiveCleanup =>
  }

  lemma DeletingRank(s: State, a: Actor, c: Pick)
    requires Deleting(a.pc)
    ensures Rank(EffectOf(s, a, c).a.pc) < Rank(a.pc)
  {
    match a.pc
    case DeleteHot =>
    case DeleteRecorded =>
    case DeleteCold =>
  }

  lemma SavingRank(s: State, a: Actor, c: Pick)
    requires Saving(a.pc) && !Block(s, a)
    ensures Rank(EffectOf(s, a, c).a.pc) < Rank(a.pc)
  {
    if a.pc.SnapResolve? {
      ResolveRank(s, a, c);
    }
  }

  lemma ResolveRank(s: State, a: Actor, c: Pick)
    requires a.pc.SnapResolve?
    ensures EffectOf(s, a, c).a.pc.SnapOpen? || EffectOf(s, a, c).a.pc.End?
  {
  }

  lemma InsideRank(s: State, a: Actor, c: Pick)
    requires Inside(a.pc) && !Block(s, a) && !c.yes
    ensures Rank(EffectOf(s, a, c).a.pc) < Rank(a.pc)
  {
    if Checking(a.pc) {
      CheckingRank(s, a, c);
    } else if Hydrating(a.pc) {
      HydratingRank(s, a, c);
    } else if Preparing(a.pc) {
      PreparingRank(s, a, c);
    } else if Archiving(a.pc) {
      ArchivingRank(s, a, c);
    } else if ArchiveEnding(a.pc) {
      ArchiveEndingRank(s, a, c);
    } else if Deleting(a.pc) {
      DeletingRank(s, a, c);
    } else {
      SavingRank(s, a, c);
    }
  }

  /** A copied block leaves what is still to be copied as it was. */
  lemma BlockLeft(s: State, id: nat, c: Pick)
    requires id in s.actors && Block(s, s.actors[id]) && SourceShape(s.actors[id])
    ensures var s', a, a' := GoStep(s, id, c), s.actors[id], GoStep(s, id, c).actors[id];
      a' == a.(i := a.i + 1) && Left(s', a') < Left(s, a)
  {
    InsideStep(s, id, c);
  }

  lemma InsideNearer(s: State, id: nat, c: Pick)
    requires id in s.actors && Inside(s.actors[id].pc) && SourceShape(s.actors[id]) && LocalsOk(s.actors[id]) && !c.yes
    ensures Nearer(s, GoStep(s, id, c), id)
  {
    InsideHeld(s.actors[id]);
    if Block(s, s.actors[id]) {
      BlockLeft(s, id, c);
    } else {
      InsideRank(s, s.actors[id], c);
      InsideOnward(s, s.actors[id], c);
      InsideStep(s, id, c);
    }
  }

  lemma ReadRank(s: State, a: Actor, c: Pick)
    requires a.pc.Read? && a.held
    ensures var a' := ReadHeld(s, a, c); a'.held && a'.u == a.u && Rank(a'.pc) < Rank(a.pc)
  {
  }

  lemma ReadNearer(s: State, id: nat, c: Pick)
    requires id in s.actors && s.actors[id].held && s.actors[id].pc.Read?
    ensures Nearer(s, GoStep(s, id, c), id)
  {
    EarlyStep(s, id, c);
    ReadRank(s, s.actors[id], c);
  }

  lemma LaunchNearer(s: State, id: nat, a: Actor, resume: bool)
    requires id in s.actors && a == s.actors[id] && a.held && (a.pc.Launch? || a.pc.ResumeLaunch?)
    ensures Nearer(s, LaunchStep(s, id, a, resume), id)
  {
  }

  lemma RegisterNearer(s: State, id: nat, a: Actor)
    requires id in s.actors && a == s.actors[id] && a.held && a.pc.Register?
    ensures Nearer(s, RegisterStep(s, id, a), id)
  {
  }

  lemma DoneNearer(s: State, s': State, id: nat)
    requires id in s.actors && s.actors[id].held && Rank(s.actors[id].pc) > 1
    requires id in s'.actors && s'.actors[id] == Done(s.actors[id])
    ensures Nearer(s, s', id)
  {
  }

  lemma LaunchingNearer(s: State, id: nat, c: Pick)
    requires id in s.actors && s.actors[id].held
    requires var pc := s.actors[id].pc; pc.Launch? || pc.ResumeLaunch? || pc.Register?
    ensures Nearer(s, GoStep(s, id, c), id)
  {
    var a := s.actors[id];
    LateStep(s, id, c);
    if a.pc.Register? {
      RegisterNearer(s, id, a);
    } else {
      LaunchNearer(s, id, a, a.pc.ResumeLaunch?);
    }
  }

  lemma EndingNearer(s: State, id: nat, c: Pick)
    requires id in s.actors && s.actors[id].held
    requires var pc := s.actors[id].pc; pc.Settle? || pc.DeleteRow? || pc.SnapCommit?
    ensures Nearer(s, GoStep(s, id, c), id)
  {
    LateStep(s, id, c);
    DoneNearer(s, GoStep(s, id, c), id);
  }

  lemma FailNearer(s: State, id: nat)
    requires id in s.actors && s.actors[id].held && CanFail(s.actors[id].pc) && LocalsOk(s.actors[id])
    ensures Nearer(s, Apply(s, Fail(id)), id)
  {
    FailRank(s.actors[id]);
  }

  lemma FailRank(a: Actor)
    requires CanFail(a.pc)
    ensures Rank(FailTo(a).pc) < Rank(a.pc)
  {
  }

  lemma EndFrees(s: State, id: nat, c: Pick)
    requires id in s.actors && s.actors[id].held && s.actors[id].pc.End?
    ensures Freed(GoStep(s, id, c), id, s.actors[id].u)
  {
    EarlyStep(s, id, c);
  }

  lemma StopReaper(s: State, u: Uuid)
    requires Core(s) && u in s.t.running
    ensures var pid := s.t.running[u];
      && pid in s.reapers && s.reapers[pid].u == u
      && (pid in s.procs ==> s.procs[pid].u == u && !s.reapers[pid].exited)
  {
    var pid := s.t.running[u];
    if pid in s.procs {
      assert Tended(s, pid);
      forall i | i in s.actors && s.actors[i].pc.Register? ensures s.actors[i].pid !in s.reapers {
        ActorAt(s, i);
      }
    }
  }

  lemma ExitNearer(s: State, id: nat, pid: nat)
    requires id in s.actors && s.actors[id].held && s.actors[id].pc.DeleteStop? && pid in s.procs
    requires s.actors[id].u in s.t.running && s.t.running[s.actors[id].u] == pid
    ensures Nearer(s, s.(procs := s.procs - {pid}), id)
  {
  }

  lemma ReapNearer(s: State, id: nat, pid: nat)
    requires id in s.actors && s.actors[id].held && s.actors[id].pc.DeleteStop? && pid in s.reapers && pid !in s.procs
    requires s.actors[id].u in s.t.running && s.t.running[s.actors[id].u] == pid && s.reapers[pid].u == s.actors[id].u
    ensures Nearer(s, if s.reapers[pid].exited then DropEntry(s, pid) else SeeExit(s, pid), id)
  {
  }

  lemma StopNearer(s: State, id: nat) returns (l: Label)
    requires Core(s) && id in s.actors && s.actors[id].held && s.actors[id].pc.DeleteStop?
    requires s.actors[id].u in s.t.running
    ensures Enabled(s, l) && Natural(s, l, id) && Nearer(s, Apply(s, l), id)
  {
    var pid := s.t.running[s.actors[id].u];
    StopReaper(s, s.actors[id].u);
    if pid in s.procs {
      l := Exit(pid);
      ExitNearer(s, id, pid);
    } else {
      l := Reap(pid);
      ReapNearer(s, id, pid);
    }
  }

  /** Some number no temporary file has. */
  lemma Unused(ps: set<Path>) returns (k: nat)
    ensures forall p :: p in ps && (p.HotTmp? || p.ColdTmp?) ==> p.k < k
  {
    if ps == {} {
      k := 0;
    } else {
      var p :| p in ps;
      var k0 := Unused(ps - {p});
      k := if (p.HotTmp? || p.ColdTmp?) && p.k >= k0 then p.k + 1 else k0;
    }
  }

  /** The next step can be taken, or the operation is refused and may fail. */
  lemma Choice(s: State, a: Actor) returns (c: Pick)
    requires !a.pc.Begin? && !a.pc.Wait? && !a.pc.DeleteStop?
    ensures !c.yes && (GoEnabled(s, a, c) || (Refused(s, a) && CanFail(a.pc)))
  {
    var k := Unused(s.fs.Keys);
    c := Pick(false, k, []);
  }

  /** The holder can always come nearer to the end. */
  lemma Advance(s: State, id: nat) returns (l: Label)
    requires Core(s) && Shaped(s) && id in s.actors && s.actors[id].held
    ensures Enabled(s, l) && Natural(s, l, id)
    ensures Nearer(s, Apply(s, l), id) || Freed(Apply(s, l), id, s.actors[id].u)
  {
    var a := s.actors[id];
    CoreLocals(s, id);
    if a.pc.DeleteStop? && a.u in s.t.running {
      l := StopNearer(s, id);
    } else if a.pc.DeleteStop? {
      l := Go(id, Pick(false, 0, []));
      InsideNearer(s, id, l.pick);
    } else {
      var c := Choice(s, a);
      if !GoEnabled(s, a, c) {
        l := Fail(id);
        FailNearer(s, id);
      } else {
        l := Go(id, c);
        if Inside(a.pc) {
          InsideNearer(s, id, c);
        } else if a.pc.End? {
          EndFrees(s, id, c);
        } else if a.pc.Read? {
          ReadNearer(s, id, c);
        } else if a.pc.Settle? || a.pc.DeleteRow? || a.pc.SnapCommit? {
          EndingNearer(s, id, c);
        } else {
          LaunchingNearer(s, id, c);
        }
      }
    }
  }

  lemma {:induction false} FinishRun(s: State, id: nat) returns (ls: seq<Label>)
    requires Core(s) && Shaped(s) && id in s.actors && s.actors[id].held
    ensures Executable(s, ls) && NaturalRun(s, ls, id) && Freed(Run(s, ls), id, s.actors[id].u)
    decreases Rank(s.actors[id].pc), Left(s, s.actors[id])
  {
    var l := Advance(s, id);
    var s' := Apply(s, l);
    if Freed(s', id, s.actors[id].u) {
      ls := [l];
      assert ls[1..] == [] && Executable(s', []) && Run(s', []) == s';
    } else {
      StepSound(s, l);
      StepShapes(s, l);
      ShapeStepKeeps(s, s');
      var ms := FinishRun(s', id);
      ls := [l] + ms;
      assert ls[1..] == ms;
    }
  }

  /**
  From every state of every run, the holder of a token can come to the end of its operation
  and release the token: by its own steps, failing only where its next step is refused, and
  for a delete that stops its VM, by the exit of the VM's process and its reaper.
  */
  lemma HolderFinishes(s: State, id: nat)
    requires Reached(s) && id in s.actors && s.actors[id].held
    ensures exists ls :: Executable(s, ls) && NaturalRun(s, ls, id) && Freed(Run(s, ls), id, s.actors[id].u)
  {
    ReachedCore(s);
    ReachedShapes(s);
    var ls := FinishRun(s, id);
  }
}
