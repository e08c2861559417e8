/**
The steps of operations keep the invariant: together with `EnvSteps`, every step does, if a
create avoids the names that operations in flight carry and a save opens only what it may open.
*/
module Safety {
  import opened Options
  import opened OpTable
  import opened World
  import opened Invariant
  import opened Frames
  import opened InsideSteps
  import opened TableSteps
  import opened LaunchSteps

  // ---------------------------------------------------------------- one step

  /**
  The next step of the operation is harmless and leaves it well informed. The quantifier over
  one value here, and in the predicates like this one, keeps the definition from the solver
  until a lemma asks for it.
  */
  ghost predicate Fine(s: State, a: Actor, c: Pick) {
    forall e :: e == EffectOf(s, a, c) ==> Good(s, a, e)
  }

  predicate Hydrating(pc: Pc) {
    || pc.HydrateStat? || pc.HydrateClear? || pc.HydrateDropStale? || pc.HydrateTmp? || pc.HydrateCopy?
    || pc.HydrateRename? || pc.HydrateForget? || pc.HydrateDropCold? || pc.HydrateCleanup?
  }

  predicate Preparing(pc: Pc) {
    pc.Ensure? || pc.Fill? || pc.Edit?
  }

  predicate Archiving(pc: Pc) {
    pc.ArchiveTmp? || pc.ArchiveCopy? || pc.ArchiveDropOld? || pc.ArchiveRename?
  }

  predicate ArchiveEnding(pc: Pc) {
    pc.ArchiveRecord? || pc.ArchiveDropHot? || pc.ArchiveCleanup?
  }

  predicate Deleting(pc: Pc) {
    pc.DeleteHot? || pc.DeleteRecorded? || pc.DeleteCold?
  }

  predicate Saving(pc: Pc) {
    pc.SnapResolve? || pc.SnapOpen? || pc.SnapCopy?
  }

  /** The step only decides where to go on, by the table or the files, under the token. */
  predicate Checking(pc: Pc) {
    pc.ArchiveCheck? || pc.ArchiveStat? || pc.ArchiveConfirm? || pc.DeleteCheck? || pc.DeleteStop? || pc.SnapCheck?
  }

  /** The step stays inside the operation's VM. */
  predicate Inside(pc: Pc) {
    Checking(pc) || Hydrating(pc) || Preparing(pc) || Archiving(pc) || ArchiveEnding(pc) || Deleting(pc) || Saving(pc)
  }

  /** The operation has its token and goes on only while nothing of its VM runs. */
  predicate Still(a: Actor) {
    match a.pc
    case Begin => false
    case Wait => false
    case Read => a.held && a.kind == StartVM
    case End => false
    case Register => false
    case Settle => false
    case ArchiveCheck => false
    case DeleteCheck => false
    case DeleteStop => false
    case SnapExists => false
    case SnapCheck => false
    case _ => true
  }

  /** The step finds out whether the VM runs. */
  predicate Unsure(pc: Pc) {
    pc.ArchiveCheck? || pc.DeleteCheck? || pc.DeleteStop? || pc.SnapCheck?
  }

  /** The operation goes on: the same job, the same token, nothing launched. */
  predicate Onward(a: Actor, a': Actor) {
    && a'.kind == a.kind && a'.u == a.u && a'.held == a.held && a'.sn == a.sn
    && LocalsOk(a') && !a'.pc.Wait? && !a'.pc.Register? && !a'.pc.Settle? && !a.pc.Register?
    && (Still(a') ==> Still(a) || Unsure(a.pc)) && (Writing(a') ==> Writing(a) || a.pc.SnapOpen?)
  }

  lemma ArchiveCheckOnward(s: State, a: Actor, c: Pick)
    requires a.pc.ArchiveCheck? && LocalsOk(a)
    ensures Onward(a, EffectOf(s, a, c).a)
  {
  }

  lemma ArchiveStatOnward(s: State, a: Actor, c: Pick)
    requires a.pc.ArchiveStat? && LocalsOk(a)
    ensures Onward(a, EffectOf(s, a, c).a)
  {
  }

  lemma ArchiveConfirmOnward(s: State, a: Actor, c: Pick)
    requires a.pc.ArchiveConfirm? && LocalsOk(a)
    ensures Onward(a, EffectOf(s, a, c).a)
  {
  }

  lemma DeleteCheckOnward(s: State, a: Actor, c: Pick)
    requires a.pc.DeleteCheck? && LocalsOk(a)
    ensures Onward(a, EffectOf(s, a, c).a)
  {
  }

  lemma DeleteStopOnward(s: State, a: Actor, c: Pick)
    requires a.pc.DeleteStop? && LocalsOk(a)
    ensures Onward(a, EffectOf(s, a, c).a)
  {
  }

  lemma SnapCheckOnward(s: State, a: Actor, c: Pick)
    requires a.pc.SnapCheck? && LocalsOk(a)
    ensures Onward(a, EffectOf(s, a, c).a)
  {
  }

  lemma CheckingOnward(s: State, a: Actor, c: Pick)
    requires Checking(a.pc) && LocalsOk(a)
    ensures Onward(a, EffectOf(s, a, c).a)
  {
    match a.pc
    case ArchiveCheck => ArchiveCheckOnward(s, a, c);
    case ArchiveStat => ArchiveStatOnward(s, a, c);
    case ArchiveConfirm => ArchiveConfirmOnward(s, a, c);
    case DeleteCheck => DeleteCheckOnward(s, a, c);
    case DeleteStop => DeleteStopOnward(s, a, c);
    case SnapCheck => SnapCheckOnward(s, a, c);
  }

  lemma HydratingOnward(s: State, a: Actor, c: Pick)
    requires Hydrating(a.pc) && LocalsOk(a)
    ensures Onward(a, EffectOf(s, a, c).a)
  {
  }

  lemma PreparingOnward(s: State, a: Actor, c: Pick)
    requires Preparing(a.pc) && LocalsOk(a)
    ensures Onward(a, EffectOf(s, a, c).a)
  {
  }

  lemma ArchivingOnward(s: State, a: Actor, c: Pick)
    requires Archiving(a.pc) && LocalsOk(a)
    ensures Onward(a, EffectOf(s, a, c).a)
  {
  }

  lemma ArchiveEndingOnward(s: State, a: Actor, c: Pick)
    requires ArchiveEnding(a.pc) && LocalsOk(a)
    ensures Onward(a, EffectOf(s, a, c).a)
  {
  }

  lemma DeletingOnward(s: State, a: Actor, c: Pick)
    requires Deleting(a.pc) && LocalsOk(a)
    ensures Onward(a, EffectOf(s, a, c).a)
  {
  }

  lemma SavingOnward(s: State, a: Actor, c: Pick)
    requires Saving(a.pc) && LocalsOk(a)
    ensures Onward(a, EffectOf(s, a, c).a)
  {
  }

  lemma InsideOnward(s: State, a: Actor, c: Pick)
    requires Inside(a.pc) && LocalsOk(a)
    ensures Onward(a, EffectOf(s, a, c).a)
  {
    if Checking(a.pc) {
      CheckingOnward(s, a, c);
    } else if Hydrating(a.pc) {
      HydratingOnward(s, a, c);
    } else if Preparing(a.pc) {
      PreparingOnward(s, a, c);
    } else if Archiving(a.pc) {
      ArchivingOnward(s, a, c);
    } else if ArchiveEnding(a.pc) {
      ArchiveEndingOnward(s, a, c);
    } else if Deleting(a.pc) {
      DeletingOnward(s, a, c);
    } else {
      SavingOnward(s, a, c);
    }
  }

  lemma FailOnward(a: Actor)
    requires LocalsOk(a) && a.held && CanFail(a.pc)
    ensures Onward(a, FailTo(a)) && (Unsure(a.pc) ==> FailTo(a) == Done(a))
  {
  }

  lemma ArchiveCheckFine(s: State, a: Actor, c: Pick)
    requires Knows(s, a) && a.pc.ArchiveCheck? && (a.u !in s.t.running ==> Quiet(s, a.u))
    ensures Fine(s, a, c)
  {
    if a.u in s.t.running {
      DoneGood(s, a);
    } else {
      ArchiveCheckGood(s, a);
    }
  }

  lemma SnapCheckFine(s: State, a: Actor, c: Pick)
    requires Knows(s, a) && a.pc.SnapCheck? && (a.u !in s.t.running ==> Quiet(s, a.u))
    ensures Fine(s, a, c)
  {
    if a.u in s.t.running || a.row.state != "stopped" {
      DoneGood(s, a);
    } else {
      SnapCheckGood(s, a);
    }
  }

  lemma CheckFine(s: State, a: Actor, c: Pick)
    requires Knows(s, a) && Checking(a.pc) && GoEnabled(s, a, c) && (a.u !in s.t.running ==> Quiet(s, a.u))
    ensures Fine(s, a, c)
  {
    match a.pc
    case ArchiveCheck => ArchiveCheckFine(s, a, c);
    case ArchiveStat => ArchiveStatGood(s, a);
    case ArchiveConfirm => ArchiveConfirmGood(s, a);
    case DeleteCheck => DeleteCheckGood(s, a);
    case DeleteStop => DeleteStopGood(s, a);
    case SnapCheck => SnapCheckFine(s, a, c);
  }

  lemma HydrateFine(s: State, a: Actor, c: Pick)
    requires Knows(s, a) && Hydrating(a.pc)
    ensures Fine(s, a, c)
  {
    match a.pc
    case HydrateStat => HydrateStatGood(s, a);
    case HydrateClear => HydrateClearGood(s, a);
    case HydrateDropStale => HydrateDropStaleGood(s, a, c);
    case HydrateTmp => HydrateTmpGood(s, a, c);
    case HydrateCopy => HydrateCopyGood(s, a);
    case HydrateRename => HydrateRenameGood(s, a);
    case HydrateForget => HydrateForgetGood(s, a);
    case HydrateDropCold => HydrateDropColdGood(s, a, c);
    case HydrateCleanup => HydrateCleanupGood(s, a);
  }

  lemma PrepareFine(s: State, a: Actor, c: Pick)
    requires Knows(s, a) && Preparing(a.pc)
    ensures Fine(s, a, c)
  {
    match a.pc
    case Ensure =>
      if Hot(a.row.name) in s.fs {
        EnsureFoundGood(s, a);
      } else {
        EnsureMissingGood(s, a);
      }
    case Fill => FillGood(s, a, c);
    case Edit => EditGood(s, a, c);
  }

  lemma ArchiveCopyFine(s: State, a: Actor, c: Pick)
    requires Knows(s, a) && a.pc.ArchiveCopy?
    ensures Fine(s, a, c)
  {
    if Canceled(s.t, a.u) {
      ArchiveCancelGood(s, a);
    } else if a.i < |At(s.fs, Hot(a.row.name))| {
      ArchiveCopyGood(s, a);
    } else {
      ArchiveCopiedGood(s, a);
    }
  }

  lemma ArchiveEndFine(s: State, a: Actor, c: Pick)
    requires Knows(s, a) && ArchiveEnding(a.pc)
    ensures Fine(s, a, c)
  {
    match a.pc
    case ArchiveRecord => ArchiveRecordGood(s, a);
    case ArchiveDropHot => ArchiveDropHotGood(s, a);
    case ArchiveCleanup => ArchiveCleanupGood(s, a);
  }

  lemma ArchiveFine(s: State, a: Actor, c: Pick)
    requires Knows(s, a) && Archiving(a.pc)
    ensures Fine(s, a, c)
  {
    match a.pc
    case ArchiveTmp => ArchiveTmpGood(s, a, c);
    case ArchiveCopy => ArchiveCopyFine(s, a, c);
    case ArchiveDropOld => ArchiveDropOldGood(s, a);
    case ArchiveRename => ArchiveRenameGood(s, a);
  }

  lemma DeleteFine(s: State, a: Actor, c: Pick)
    requires Knows(s, a) && Deleting(a.pc)
    ensures Fine(s, a, c)
  {
    match a.pc
    case DeleteHot => DeleteHotGood(s, a);
    case DeleteRecorded => DeleteRecordedGood(s, a);
    case DeleteCold => DeleteColdGood(s, a);
  }

  lemma SnapResolveFine(s: State, a: Actor, c: Pick)
    requires Knows(s, a) && a.pc.SnapResolve? && RowOk(s, a.u, a.row) && Rows(s)
    ensures Fine(s, a, c)
  {
    var src := VmDiskPath(s.cfg, s.fs, a.row);
    if src.Ok? {
      ResolvedSource(s, a, src.value);
      SnapResolveFound(s, a, src.value);
    } else {
      DoneGood(s, a);
    }
  }

  lemma SaveFine(s: State, a: Actor, c: Pick)
    requires Knows(s, a) && Saving(a.pc) && GoEnabled(s, a, c)
    requires RowOk(s, a.u, a.row) && Rows(s)
    ensures Fine(s, a, c)
  {
    match a.pc
    case SnapResolve => SnapResolveFine(s, a, c);
    case SnapOpen => SnapOpenGood(s, a);
    case SnapCopy =>
      if a.i < |At(s.fs, a.src)| {
        SnapCopyGood(s, a);
      } else {
        SnapCopiedGood(s, a);
      }
  }

  lemma InsideFine(s: State, a: Actor, c: Pick)
    requires Knows(s, a) && Inside(a.pc) && GoEnabled(s, a, c) && (a.u !in s.t.running ==> Quiet(s, a.u))
    requires RowOk(s, a.u, a.row) && Rows(s)
    ensures Fine(s, a, c)
  {
    if Checking(a.pc) {
      CheckFine(s, a, c);
    } else if Hydrating(a.pc) {
      HydrateFine(s, a, c);
    } else if Preparing(a.pc) {
      PrepareFine(s, a, c);
    } else if Archiving(a.pc) {
      ArchiveFine(s, a, c);
    } else if ArchiveEnding(a.pc) {
      ArchiveEndFine(s, a, c);
    } else if Deleting(a.pc) {
      DeleteFine(s, a, c);
    } else {
      SaveFine(s, a, c);
    }
  }

  /** What `InsideFine` needs, as one fact; the quantifier hides it from the solver. */
  ghost predicate Informed(s: State, a: Actor) {
    forall b :: b == a ==> Knows(s, b) && RowOk(s, b.u, b.row) && (b.u !in s.t.running ==> Quiet(s, b.u))
  }

  lemma HolderInformed(s: State, id: nat)
    requires Inv(s) && id in s.actors && s.actors[id].held && s.actors[id].hasRow && !s.actors[id].pc.Register?
    ensures Informed(s, s.actors[id])
  {
    PcAt(s, id);
    HolderKnows(s, id);
    if s.actors[id].u !in s.t.running {
      NoProcess(s, s.actors[id].u);
    }
  }

  lemma InformedFine(s: State, a: Actor, c: Pick)
    requires Informed(s, a) && Rows(s) && Inside(a.pc) && GoEnabled(s, a, c)
    ensures Fine(s, a, c)
  {
    assert Knows(s, a);
    InsideFine(s, a, c);
  }

  /** The same for a given effect, hidden from the solver in the same way. */
  ghost predicate FineStep(s: State, a: Actor, e: Effect) {
    forall e' :: e' == e ==> Good(s, a, e')
  }

  lemma FineKeeps(s: State, id: nat, e: Effect)
    requires Inv(s) && id in s.actors && s.actors[id].hasRow && Working(s.actors[id].pc) && FineStep(s, s.actors[id], e)
    requires Opens(s, id, e)
    ensures Inv(Perform(s, id, e))
  {
    assert Good(s, s.actors[id], e);
    HolderStep(s, id, e);
  }

  lemma LocalsAt(s: State, id: nat)
    requires PcsOk(s) && id in s.actors
    ensures LocalsOk(s.actors[id])
  {
    assert PcOk(s, s.actors[id]);
  }

  lemma InsideHeld(a: Actor)
    requires LocalsOk(a) && Inside(a.pc)
    ensures a.held && a.hasRow && Working(a.pc)
  {
  }

  lemma InsideStep(s: State, id: nat, c: Pick)
    requires id in s.actors && Inside(s.actors[id].pc)
    ensures GoStep(s, id, c) == Perform(s, id, EffectOf(s, s.actors[id], c))
  {
  }

  lemma FailCloses(a: Actor)
    ensures !Writing(FailTo(a))
  {
  }

  lemma GuardedOpens(s: State, id: nat, c: Pick)
    requires id in s.actors && Inside(s.actors[id].pc) && Guarded(s, id) && LocalsOk(s.actors[id])
    ensures Opens(s, id, EffectOf(s, s.actors[id], c))
  {
    InsideOnward(s, s.actors[id], c);
  }

  lemma InsideKeeps(s: State, id: nat, c: Pick)
    requires Inv(s) && id in s.actors && Inside(s.actors[id].pc) && GoEnabled(s, s.actors[id], c) && Guarded(s, id)
    ensures Inv(GoStep(s, id, c))
  {
    LocalsAt(s, id);
    InsideHeld(s.actors[id]);
    HolderInformed(s, id);
    InformedFine(s, s.actors[id], c);
    GuardedOpens(s, id, c);
    FineKeeps(s, id, EffectOf(s, s.actors[id], c));
    InsideStep(s, id, c);
  }

  /** The invariant, as one fact that the solver does not look into. */
  ghost predicate Kept(s: State) {
    forall x :: x == s ==> Inv(x)
  }

  lemma EarlyStep(s: State, id: nat, c: Pick)
    requires id in s.actors
    ensures var a := s.actors[id];
      && (a.pc.Begin? ==> GoStep(s, id, c) == BeginStep(s, id, a))
      && (a.pc.Wait? ==> GoStep(s, id, c) == Become(s, id, a.(pc := Begin)))
      && (a.pc.Read? && a.held ==> GoStep(s, id, c) == Become(s, id, ReadHeld(s, a, c)))
      && (a.pc.Read? && !a.held ==> GoStep(s, id, c) == ReadEarly(s, id, a))
      && (a.pc.SnapExists? ==> GoStep(s, id, c) == SnapExistsStep(s, id, a))
      && (a.pc.End? ==> GoStep(s, id, c) == EndStep(s, id, a))
  {
  }

  lemma BeginKeeps(s: State, id: nat, c: Pick)
    requires Inv(s) && id in s.actors && s.actors[id].pc.Begin? && GoEnabled(s, s.actors[id], c)
    ensures Kept(BeginStep(s, id, s.actors[id]))
  {
    if TryBegin(s.t, s.actors[id], id).outcome == Granted {
      BeginGranted(s, id, c);
    } else {
      BeginBlocked(s, id);
    }
  }

  lemma EndsHeld(s: State, id: nat)
    requires Inv(s) && id in s.actors && s.actors[id].pc.End?
    ensures s.actors[id].held
  {
    LocalsAt(s, id);
  }

  lemma TableKeeps(s: State, id: nat, c: Pick)
    requires Inv(s) && id in s.actors && GoEnabled(s, s.actors[id], c)
    requires var pc := s.actors[id].pc; pc.Begin? || pc.Wait? || pc.Read? || pc.SnapExists? || pc.End?
    ensures Kept(GoStep(s, id, c))
  {
    EarlyStep(s, id, c);
    match s.actors[id].pc
    case Begin => BeginKeeps(s, id, c);
    case Wait => WaitKeeps(s, id);
    case Read =>
      if s.actors[id].held {
        ReadHeldKeeps(s, id, c);
      } else {
        ReadEarlyKeeps(s, id);
      }
    case SnapExists => SnapExistsKeeps(s, id);
    case End =>
      EndsHeld(s, id);
      EndKeeps(s, id);
  }

  /** The step launches or registers a process, or writes a row. */
  predicate Late(pc: Pc) {
    pc.Launch? || pc.ResumeLaunch? || pc.Register? || pc.Settle? || pc.DeleteRow? || pc.SnapCommit?
  }

  lemma LateStep(s: State, id: nat, c: Pick)
    requires id in s.actors
    ensures var a := s.actors[id];
      && (a.pc.Launch? ==> GoStep(s, id, c) == LaunchStep(s, id, a, false))
      && (a.pc.ResumeLaunch? ==> GoStep(s, id, c) == LaunchStep(s, id, a, true))
      && (a.pc.Register? ==> GoStep(s, id, c) == RegisterStep(s, id, a))
      && (a.pc.Settle? ==> GoStep(s, id, c) == SettleStep(s, id, a))
      && (a.pc.DeleteRow? ==> GoStep(s, id, c) == DeleteRowStep(s, id, a))
      && (a.pc.SnapCommit? ==> GoStep(s, id, c) == SnapCommitStep(s, id, a))
  {
  }

  lemma LaunchingKeeps(s: State, id: nat, c: Pick)
    requires Inv(s) && id in s.actors
    requires Late(s.actors[id].pc)
    ensures Kept(GoStep(s, id, c))
  {
    LateStep(s, id, c);
    match s.actors[id].pc
    case Launch => LaunchKeeps(s, id, false);
    case ResumeLaunch => LaunchKeeps(s, id, true);
    case Register => RegisterKeeps(s, id);
    case Settle => SettleKeeps(s, id);
    case DeleteRow => DeleteRowKeeps(s, id);
    case SnapCommit => SnapCommitKeeps(s, id);
  }

  lemma GoKeeps(s: State, id: nat, c: Pick)
    requires Inv(s) && id in s.actors && GoEnabled(s, s.actors[id], c) && Guarded(s, id)
    ensures Kept(GoStep(s, id, c))
  {
    var pc := s.actors[id].pc;
    if Inside(pc) {
      InsideKeeps(s, id, c);
    } else if pc.Begin? || pc.Wait? || pc.Read? || pc.SnapExists? || pc.End? {
      TableKeeps(s, id, c);
    } else {
      LaunchingKeeps(s, id, c);
    }
  }

  lemma FailInside(s: State, id: nat)
    requires Inv(s) && id in s.actors && s.actors[id].held && s.actors[id].hasRow && CanFail(s.actors[id].pc)
    requires Working(s.actors[id].pc)
    ensures Inv(Become(s, id, FailTo(s.actors[id])))
  {
    var e := Goto(FailTo(s.actors[id]));
    HolderKnows(s, id);
    FailGood(s, s.actors[id]);
    FailCloses(s.actors[id]);
    FineKeeps(s, id, e);
    assert Perform(s, id, e) == Become(s, id, FailTo(s.actors[id]));
  }

  lemma FailRead(s: State, id: nat)
    requires Inv(s) && id in s.actors && s.actors[id].held && s.actors[id].pc.Read?
    ensures Inv(Become(s, id, FailTo(s.actors[id])))
  {
    PcAt(s, id);
    DonePc(s, id, s.actors[id]);
    MoveKeeps(s, id, Done(s.actors[id]));
  }

  lemma FailKeeps(s: State, id: nat)
    requires Inv(s) && Enabled(s, Fail(id))
    ensures Inv(Apply(s, Fail(id)))
  {
    LocalsAt(s, id);
    if !s.actors[id].held {
      LeavePassive(s, id);
    } else if s.actors[id].pc.Read? {
      FailRead(s, id);
    } else {
      FailInside(s, id);
    }
  }

  // ---------------------------------------------------------------- runs in pieces

  lemma {:induction false} RunAppend(s: State, ls: seq<Label>, ms: seq<Label>)
    requires Executable(s, ls) && Executable(Run(s, ls), ms)
    ensures Executable(s, ls + ms) && Run(s, ls + ms) == Run(Run(s, ls), ms)
    ensures forall tidy :: CarefulRun(tidy, s, ls) && CarefulRun(tidy, Run(s, ls), ms) ==> CarefulRun(tidy, s, ls + ms)
    decreases |ls|
  {
    if ls == [] {
      assert ls + ms == ms;
    } else {
      assert (ls + ms)[0] == ls[0] && (ls + ms)[1..] == ls[1..] + ms;
      RunAppend(Apply(s, ls[0]), ls[1..], ms);
    }
  }

  lemma OneStep(s: State, l: Label)
    requires Enabled(s, l)
    ensures Executable(s, [l]) && Run(s, [l]) == Apply(s, l)
  {
    var s' := Apply(s, l);
    assert [l][1..] == [] && Executable(s', []) && Run(s', []) == s';
  }
}
