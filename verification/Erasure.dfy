/**
The view of a state that the guarantees are proved on: without the saves, and without the
deletes that can do no more harm, because nothing in the code keeps a VM's name from being
taken while those still carry it. What is left keeps the whole invariant.
*/
module Erasure {
  import opened Options
  import opened OpTable
  import opened World
  import opened Invariant
  import opened Frames
  import opened Safety
  import opened EveryRun
  import opened Shapes
  import LaunchSteps
  import TableSteps

  // ---------------------------------------------------------------- the view without saves

  /** A delete whose VM is gone and that has removed all it can remove. */
  predicate Parked(s: State, a: Actor) {
    && a.kind == DeleteVM && a.u !in s.rows
    && match a.pc
       case DeleteRow => true
       case DeleteRecorded => !Active(s.cfg)
       case DeleteCold => !Active(s.cfg)
       case _ => false
  }

  /** A save with nothing but its token. */
  function Stub(u: Uuid, held: bool): Actor {
    Request(SaveSnapshot, u, "").(pc := if held then End else Read, held := held)
  }

  /** A save that is taken out: every save, or with `tidy` only one whose VM is gone. */
  predicate Mute(tidy: bool, s: State, a: Actor) {
    IsSave(a) && (tidy ==> a.u !in s.rows)
  }

  function Shed(tidy: bool, s: State, a: Actor): Actor {
    if Mute(tidy, s, a) then Stub(a.u, a.held) else if Parked(s, a) then Done(a) else a
  }

  function Shown(tidy: bool, snaps: map<string, Saved>): map<string, Saved> {
    if tidy then snaps else map[]
  }

  /** The state without those operations; without `tidy`, also without snapshots. */
  function Erase(tidy: bool, s: State): State {
    s.(actors := map id | id in s.actors :: Shed(tidy, s, s.actors[id]), snaps := Shown(tidy, s.snaps))
  }

  /** The operation is left as it is. */
  predicate Plain(tidy: bool, s: State, a: Actor) {
    !Mute(tidy, s, a) && !Parked(s, a)
  }

  lemma EraseMove(tidy: bool, s: State, s': State, id: nat)
    requires id in s.actors && id in s'.actors && s'.actors == s.actors[id := s'.actors[id]] && s'.cfg == s.cfg
    requires forall i :: i in s.actors && i != id ==> Shed(tidy, s, s.actors[i]) == Shed(tidy, s', s.actors[i])
    ensures Erase(tidy, s') == s'.(actors := Erase(tidy, s).actors[id := Shed(tidy, s', s'.actors[id])], snaps := Shown(tidy, s'.snaps))
  {
    assert Erase(tidy, s').actors == Erase(tidy, s).actors[id := Shed(tidy, s', s'.actors[id])];
  }

  lemma SameShed(tidy: bool, s: State, s': State, a: Actor)
    requires s'.cfg == s.cfg && s'.rows.Keys == s.rows.Keys
    ensures Shed(tidy, s', a) == Shed(tidy, s, a)
  {
  }

  /** `EraseMove` for a step that neither adds nor removes a VM. */
  lemma EraseKeys(tidy: bool, s: State, s': State, id: nat)
    requires id in s.actors && id in s'.actors && s'.actors == s.actors[id := s'.actors[id]] && s'.cfg == s.cfg
    requires s'.rows.Keys == s.rows.Keys
    ensures Erase(tidy, s') == s'.(actors := Erase(tidy, s).actors[id := Shed(tidy, s', s'.actors[id])], snaps := Shown(tidy, s'.snaps))
  {
    forall i | i in s.actors && i != id ensures Shed(tidy, s, s.actors[i]) == Shed(tidy, s', s.actors[i]) {
      SameShed(tidy, s, s', s.actors[i]);
    }
    EraseMove(tidy, s, s', id);
  }

  lemma EraseLeave(tidy: bool, s: State, s': State, id: nat)
    requires id in s.actors && s'.actors == s.actors - {id} && s'.cfg == s.cfg && s'.rows == s.rows
    ensures Erase(tidy, s') == s'.(actors := Erase(tidy, s).actors - {id}, snaps := Shown(tidy, s'.snaps))
  {
    assert Erase(tidy, s').actors == Erase(tidy, s).actors - {id};
  }

  lemma EraseSame(tidy: bool, s: State, s': State)
    requires s'.actors == s.actors && s'.cfg == s.cfg && s'.rows.Keys == s.rows.Keys
    ensures Erase(tidy, s') == s'.(actors := Erase(tidy, s).actors, snaps := Shown(tidy, s'.snaps))
  {
    assert Erase(tidy, s').actors == Erase(tidy, s).actors;
  }

  // ---------------------------------------------------------------- steps of other operations

  lemma SameEffect(tidy: bool, s: State, a: Actor, c: Pick)
    requires Inside(a.pc)
    ensures EffectOf(Erase(tidy, s), a, c) == EffectOf(s, a, c)
  {
  }

  lemma SameEnabled(tidy: bool, s: State, a: Actor, c: Pick)
    requires GoEnabled(s, a, c)
    ensures GoEnabled(Erase(tidy, s), a, c)
  {
  }

  lemma RecordKeys(rows: map<Uuid, Row>, u: Uuid, path: Option<Path>)
    ensures Record(rows, u, path).Keys == rows.Keys
  {
  }

  lemma PerformErase(tidy: bool, s: State, id: nat, e: Effect)
    requires id in s.actors
    ensures var s' := Perform(s, id, e);
      Erase(tidy, s') == Become(Perform(Erase(tidy, s), id, e), id, Shed(tidy, s', e.a))
  {
    if e.archived.Some? {
      RecordKeys(s.rows, e.a.u, e.archived.value);
    }
    EraseKeys(tidy, s, Perform(s, id, e), id);
  }

  /** `Inv` of the erased state, as one fact: the solver does not look inside until it is asked to. */
  ghost predicate Blind(tidy: bool, s: State) {
    forall x :: x == Erase(tidy, s) ==> Inv(x)
  }

  lemma Seen(tidy: bool, s: State)
    requires Blind(tidy, s)
    ensures Inv(Erase(tidy, s))
  {
  }

  predicate CanPark(a: Actor) {
    a.held && (a.pc.DeleteRow? || a.pc.DeleteRecorded? || a.pc.DeleteCold?)
  }

  lemma FailDone(s: State, id: nat)
    requires id in s.actors && CanPark(s.actors[id])
    ensures Enabled(s, Fail(id)) && Apply(s, Fail(id)) == Become(s, id, Done(s.actors[id]))
  {
  }

  /** A delete that has just become harmless gives up, as it were. */
  lemma ParkKeeps(s: State, id: nat)
    requires Inv(s) && id in s.actors && CanPark(s.actors[id])
    ensures Inv(Become(s, id, Done(s.actors[id])))
  {
    FailDone(s, id);
    FailKeeps(s, id);
  }

  lemma BecomeSelf(s: State, id: nat)
    requires id in s.actors
    ensures Become(s, id, s.actors[id]) == s
  {
  }

  lemma ShedKeeps(tidy: bool, e: State, id: nat, s': State)
    requires Inv(e) && id in e.actors && !Mute(tidy, s', e.actors[id])
    requires (Parked(s', e.actors[id]) ==> CanPark(e.actors[id]))
    ensures Inv(Become(e, id, Shed(tidy, s', e.actors[id])))
  {
    if Parked(s', e.actors[id]) {
      ParkKeeps(e, id);
    } else {
      BecomeSelf(e, id);
    }
  }

  lemma PlainAt(tidy: bool, s: State, id: nat)
    requires id in s.actors && Plain(tidy, s, s.actors[id])
    ensures id in Erase(tidy, s).actors && Erase(tidy, s).actors[id] == s.actors[id]
  {
  }

  /** A save that is left in opens only a snapshot that it may open. */
  predicate Minded(tidy: bool, s: State, id: nat)
    requires id in s.actors
  {
    tidy ==> Guarded(s, id)
  }

  lemma MindedErase(tidy: bool, s: State, id: nat)
    requires id in s.actors && Plain(tidy, s, s.actors[id]) && KindOk(s.actors[id]) && Minded(tidy, s, id)
    ensures id in Erase(tidy, s).actors && Guarded(Erase(tidy, s), id)
  {
  }

  lemma PlainGo(tidy: bool, s: State, id: nat, c: Pick)
    requires Blind(tidy, s) && id in s.actors && Plain(tidy, s, s.actors[id]) && KindOk(s.actors[id])
    requires GoEnabled(s, s.actors[id], c)
    requires Minded(tidy, s, id)
    ensures id in Erase(tidy, s).actors && Kept(GoStep(Erase(tidy, s), id, c))
  {
    PlainAt(tidy, s, id);
    Seen(tidy, s);
    SameEnabled(tidy, s, s.actors[id], c);
    MindedErase(tidy, s, id);
    GoKeeps(Erase(tidy, s), id, c);
  }

  lemma InsideBlind(tidy: bool, s: State, id: nat, c: Pick)
    requires Blind(tidy, s) && id in s.actors && Plain(tidy, s, s.actors[id]) && KindOk(s.actors[id])
    requires GoEnabled(s, s.actors[id], c)
    requires Inside(s.actors[id].pc) && LocalsOk(s.actors[id]) && Minded(tidy, s, id)
    ensures Blind(tidy, GoStep(s, id, c))
  {
    var a, e := s.actors[id], EffectOf(s, s.actors[id], c);
    var s' := Perform(s, id, e);
    PlainGo(tidy, s, id, c);
    PlainAt(tidy, s, id);
    InsideStep(s, id, c);
    InsideStep(Erase(tidy, s), id, c);
    SameEffect(tidy, s, a, c);
    InsideOnward(s, a, c);
    PerformErase(tidy, s, id, e);
    ShedKeeps(tidy, Perform(Erase(tidy, s), id, e), id, s');
  }

  /** The step is the same in the erased state. */
  ghost predicate Commutes(tidy: bool, s: State, id: nat, c: Pick) {
    id in s.actors && id in Erase(tidy, s).actors && Erase(tidy, GoStep(s, id, c)) == GoStep(Erase(tidy, s), id, c)
  }

  /** The operation moves on, and is left as it is in the erased state. */
  lemma EraseStay(tidy: bool, s: State, s': State, id: nat)
    requires id in s.actors && id in s'.actors && s'.actors == s.actors[id := s'.actors[id]] && s'.cfg == s.cfg
    requires s'.rows == s.rows && Plain(tidy, s', s'.actors[id])
    ensures Erase(tidy, s') == s'.(actors := Erase(tidy, s).actors[id := s'.actors[id]], snaps := Shown(tidy, s'.snaps))
  {
    EraseKeys(tidy, s, s', id);
  }

  lemma LeaveErase(tidy: bool, s: State, id: nat)
    requires id in s.actors
    ensures Erase(tidy, Leave(s, id)) == Leave(Erase(tidy, s), id)
  {
    EraseLeave(tidy, s, Leave(s, id), id);
  }

  lemma MoveErase(tidy: bool, s: State, id: nat, a': Actor, t': Table)
    requires id in s.actors && Plain(tidy, s, a')
    ensures Erase(tidy, Become(s, id, a').(t := t')) == Become(Erase(tidy, s), id, a').(t := t')
  {
    EraseStay(tidy, s, Become(s, id, a').(t := t'), id);
  }

  lemma BeginErase(tidy: bool, s: State, id: nat, b: Begun)
    requires id in s.actors && s.actors[id].pc.Begin? && Plain(tidy, s, s.actors[id])
    ensures var a := s.actors[id]; Erase(tidy, AfterBegin(s, id, a, b)) == AfterBegin(Erase(tidy, s), id, a, b)
  {
    var a := s.actors[id];
    match b.outcome
    case Busy => LeaveErase(tidy, s, id);
    case WaitFor(arch) => MoveErase(tidy, s, id, a.(pc := Wait, arch := arch), b.t);
    case Granted => MoveErase(tidy, s, id, WithToken(a), b.t);
  }

  lemma ReadHeldErase(tidy: bool, s: State, id: nat, c: Pick)
    requires id in s.actors && s.actors[id].pc.Read? && Plain(tidy, s, s.actors[id])
    ensures var a := s.actors[id]; Erase(tidy, Become(s, id, ReadHeld(s, a, c))) == Become(Erase(tidy, s), id, ReadHeld(Erase(tidy, s), a, c))
  {
    EraseStay(tidy, s, Become(s, id, ReadHeld(s, s.actors[id], c)), id);
  }

  lemma ReadEarlyErase(tidy: bool, s: State, id: nat)
    requires id in s.actors && s.actors[id].pc.Read? && Plain(tidy, s, s.actors[id])
    ensures var a := s.actors[id]; Erase(tidy, ReadEarly(s, id, a)) == ReadEarly(Erase(tidy, s), id, a)
  {
    var a := s.actors[id];
    if a.u in s.rows {
      MoveErase(tidy, s, id, a.(row := s.rows[a.u], hasRow := true, pc := Begin), s.t);
    } else {
      LeaveErase(tidy, s, id);
    }
  }

  lemma SnapExistsErase(tidy: bool, s: State, id: nat)
    requires id in s.actors && s.actors[id].pc.SnapExists? && Plain(tidy, s, s.actors[id]) && IsSave(s.actors[id])
    ensures Erase(tidy, SnapExistsStep(s, id, s.actors[id])) == SnapExistsStep(Erase(tidy, s), id, s.actors[id])
  {
    var a := s.actors[id];
    if a.sn in s.snaps {
      LeaveErase(tidy, s, id);
    } else {
      MoveErase(tidy, s, id, a.(pc := Read), s.t);
    }
  }

  lemma EarlyCommutes(tidy: bool, s: State, id: nat, c: Pick)
    requires id in s.actors && Plain(tidy, s, s.actors[id]) && KindOk(s.actors[id])
    requires var pc := s.actors[id].pc; pc.Begin? || pc.Wait? || pc.Read? || pc.SnapExists? || pc.End?
    ensures Commutes(tidy, s, id, c)
  {
    var a := s.actors[id];
    PlainAt(tidy, s, id);
    EarlyStep(s, id, c);
    EarlyStep(Erase(tidy, s), id, c);
    match a.pc
    case Begin => BeginErase(tidy, s, id, TryBegin(s.t, a, id));
    case Wait => EraseStay(tidy, s, Become(s, id, a.(pc := Begin)), id);
    case Read =>
      ReadHeldErase(tidy, s, id, c);
      ReadEarlyErase(tidy, s, id);
    case SnapExists => SnapExistsErase(tidy, s, id);
    case End => EraseLeave(tidy, s, EndStep(s, id, a), id);
  }

  lemma DeleteRowParks(s: State, id: nat, i: nat)
    requires Tokens(s) && id in s.actors && s.actors[id].held && i in s.actors && i != id && LocalsOk(s.actors[i])
    ensures Parked(s, s.actors[i]) == Parked(DeleteRowStep(s, id, s.actors[id]), s.actors[i])
  {
    if s.actors[i].held {
      Alone(s, id, i);
    }
  }

  /** Only the holder of a VM's token can be parked, so the delete of a row parks nobody else. */
  ghost predicate ParksNone(s: State, id: nat)
    requires id in s.actors
  {
    forall i :: i in s.actors && i != id ==>
      Parked(s, s.actors[i]) == Parked(DeleteRowStep(s, id, s.actors[id]), s.actors[i])
  }

  lemma DeleteRowParksNone(s: State, id: nat)
    requires Core(s) && id in s.actors && s.actors[id].pc.DeleteRow?
    ensures ParksNone(s, id)
  {
    CoreLocals(s, id);
    forall i | i in s.actors && i != id ensures Parked(s, s.actors[i]) == Parked(DeleteRowStep(s, id, s.actors[id]), s.actors[i]) {
      CoreLocals(s, i);
      DeleteRowParks(s, id, i);
    }
  }

  /** The saves of a VM that is gone are taken out. */
  function ShedSaves(tidy: bool, e: State, u: Uuid): State {
    e.(actors := map i | i in e.actors ::
         if tidy && IsSave(e.actors[i]) && e.actors[i].u == u then Stub(u, e.actors[i].held) else e.actors[i])
  }

  lemma DeleteRowShed(tidy: bool, s: State, id: nat, i: nat)
    requires id in s.actors && ParksNone(s, id) && s.actors[id].u in s.rows && i in s.actors && i != id
    ensures var a, b := s.actors[id], Shed(tidy, s, s.actors[i]);
      Shed(tidy, DeleteRowStep(s, id, a), s.actors[i]) == if tidy && IsSave(b) && b.u == a.u then Stub(b.u, b.held) else b
  {
  }

  lemma DeleteRowAt(tidy: bool, s: State, id: nat, i: nat)
    requires id in s.actors && ParksNone(s, id) && s.actors[id].u in s.rows && i in s.actors
    requires Plain(tidy, s, s.actors[id]) && !IsSave(s.actors[id])
    ensures var a := s.actors[id];
      Erase(tidy, DeleteRowStep(s, id, a)).actors[i] == ShedSaves(tidy, DeleteRowStep(Erase(tidy, s), id, a), a.u).actors[i]
  {
    if i != id {
      DeleteRowShed(tidy, s, id, i);
    }
  }

  lemma DeleteRowActors(tidy: bool, s: State, id: nat)
    requires id in s.actors && ParksNone(s, id) && s.actors[id].u in s.rows
    requires Plain(tidy, s, s.actors[id]) && !IsSave(s.actors[id])
    ensures Erase(tidy, DeleteRowStep(s, id, s.actors[id])).actors
         == ShedSaves(tidy, DeleteRowStep(Erase(tidy, s), id, s.actors[id]), s.actors[id].u).actors
  {
    forall i | i in s.actors
      ensures Erase(tidy, DeleteRowStep(s, id, s.actors[id])).actors[i]
           == ShedSaves(tidy, DeleteRowStep(Erase(tidy, s), id, s.actors[id]), s.actors[id].u).actors[i]
    {
      DeleteRowAt(tidy, s, id, i);
    }
  }

  lemma DeleteRowRest(tidy: bool, s: State, id: nat, a: Actor)
    ensures var x := Erase(tidy, DeleteRowStep(s, id, a));
      x == ShedSaves(tidy, DeleteRowStep(Erase(tidy, s), id, a), a.u).(actors := x.actors)
  {
  }

  lemma DeleteRowErase(tidy: bool, s: State, id: nat)
    requires Core(s) && id in s.actors && s.actors[id].pc.DeleteRow? && s.actors[id].u in s.rows
    requires Plain(tidy, s, s.actors[id])
    requires !IsSave(s.actors[id])
    ensures Erase(tidy, DeleteRowStep(s, id, s.actors[id]))
         == ShedSaves(tidy, DeleteRowStep(Erase(tidy, s), id, s.actors[id]), s.actors[id].u)
  {
    DeleteRowParksNone(s, id);
    DeleteRowActors(tidy, s, id);
    DeleteRowRest(tidy, s, id, s.actors[id]);
  }

  lemma LaunchErase(tidy: bool, s: State, id: nat, resume: bool)
    requires id in s.actors && (s.actors[id].pc.Launch? || s.actors[id].pc.ResumeLaunch?)
    requires Plain(tidy, s, s.actors[id])
    ensures Erase(tidy, LaunchStep(s, id, s.actors[id], resume)) == LaunchStep(Erase(tidy, s), id, s.actors[id], resume)
  {
    EraseStay(tidy, s, LaunchStep(s, id, s.actors[id], resume), id);
  }

  lemma RegisterErase(tidy: bool, s: State, id: nat)
    requires id in s.actors && s.actors[id].pc.Register? && Plain(tidy, s, s.actors[id])
    ensures Erase(tidy, RegisterStep(s, id, s.actors[id])) == RegisterStep(Erase(tidy, s), id, s.actors[id])
  {
    EraseStay(tidy, s, RegisterStep(s, id, s.actors[id]), id);
  }

  lemma SettleErase(tidy: bool, s: State, id: nat)
    requires id in s.actors && s.actors[id].pc.Settle? && Plain(tidy, s, s.actors[id])
    ensures Erase(tidy, SettleStep(s, id, s.actors[id])) == SettleStep(Erase(tidy, s), id, s.actors[id])
  {
    EraseStay(tidy, s, SettleStep(s, id, s.actors[id]), id);
  }

  lemma SnapCommitErase(tidy: bool, s: State, id: nat)
    requires tidy && id in s.actors && s.actors[id].pc.SnapCommit? && Plain(tidy, s, s.actors[id])
    ensures Erase(tidy, SnapCommitStep(s, id, s.actors[id])) == SnapCommitStep(Erase(tidy, s), id, s.actors[id])
  {
    EraseStay(tidy, s, SnapCommitStep(s, id, s.actors[id]), id);
  }

  lemma LateCommutes(tidy: bool, s: State, id: nat, c: Pick)
    requires id in s.actors && Plain(tidy, s, s.actors[id]) && KindOk(s.actors[id]) && Late(s.actors[id].pc)
    requires !s.actors[id].pc.DeleteRow?
    ensures Commutes(tidy, s, id, c)
  {
    var a := s.actors[id];
    PlainAt(tidy, s, id);
    LateStep(s, id, c);
    LateStep(Erase(tidy, s), id, c);
    match a.pc
    case Launch => LaunchErase(tidy, s, id, false);
    case ResumeLaunch => LaunchErase(tidy, s, id, true);
    case Register => RegisterErase(tidy, s, id);
    case Settle => SettleErase(tidy, s, id);
    case SnapCommit => SnapCommitErase(tidy, s, id);
  }

  /** Saves of this VM have no token. */
  predicate Passive(tidy: bool, e: State, u: Uuid) {
    forall i :: i in e.actors && tidy && IsSave(e.actors[i]) && e.actors[i].u == u ==> !e.actors[i].held
  }

  lemma ShedTable(tidy: bool, e: State, u: Uuid)
    requires Tokens(e) && Ids(e) && Reapers(e) && Passive(tidy, e, u)
    ensures var e' := ShedSaves(tidy, e, u); Tokens(e') && Ids(e') && Reapers(e')
  {
  }

  lemma ShedNames(tidy: bool, e: State, u: Uuid)
    requires Names(e)
    ensures Names(ShedSaves(tidy, e, u))
  {
    var e' := ShedSaves(tidy, e, u);
    forall i, j | i in e'.actors && j in e'.actors
      ensures OneVm(e'.actors[i], e'.actors[j]) && (Clash(e'.actors[i], e'.actors[j]) ==> i == j)
    {
      assert OneVm(e.actors[i], e.actors[j]);
    }
  }

  lemma ShedProcs(tidy: bool, e: State, u: Uuid)
    requires ProcsOk(e) && Tokens(e) && Passive(tidy, e, u)
    ensures ProcsOk(ShedSaves(tidy, e, u))
  {
    forall pid | pid in e.procs ensures ProcOk(ShedSaves(tidy, e, u), pid) {
      assert ProcOk(e, pid);
    }
  }

  lemma ShedPc(tidy: bool, e: State, u: Uuid, b: Actor)
    requires PcOk(e, b)
    ensures PcOk(ShedSaves(tidy, e, u), b)
  {
    var e' := ShedSaves(tidy, e, u);
    assert Quiet(e', b.u) == Quiet(e, b.u);
    PcFrame(e, e', b);
  }

  lemma StubPc(s: State, a: Actor)
    requires a == Stub(a.u, a.held)
    ensures PcOk(s, a)
  {
  }

  lemma ShedActors(tidy: bool, e: State, u: Uuid)
    requires PcsOk(e)
    ensures PcsOk(ShedSaves(tidy, e, u))
  {
    var e' := ShedSaves(tidy, e, u);
    forall i | i in e'.actors ensures PcOk(e', e'.actors[i]) {
      assert PcOk(e, e.actors[i]);
      ShedPc(tidy, e, u, e.actors[i]);
      StubPc(e', Stub(u, e.actors[i].held));
    }
  }

  lemma ShedSavesKeeps(tidy: bool, e: State, u: Uuid)
    requires Inv(e) && Passive(tidy, e, u)
    ensures Inv(ShedSaves(tidy, e, u))
  {
    ShedTable(tidy, e, u);
    ShedNames(tidy, e, u);
    ShedProcs(tidy, e, u);
    LaunchSteps.DataKept(e, ShedSaves(tidy, e, u));
    ShedActors(tidy, e, u);
  }

  lemma DeleteRowPassive(tidy: bool, s: State, id: nat)
    requires Tokens(Erase(tidy, s)) && id in s.actors && s.actors[id].held && Plain(tidy, s, s.actors[id])
    requires !IsSave(s.actors[id])
    ensures Passive(tidy, DeleteRowStep(Erase(tidy, s), id, s.actors[id]), s.actors[id].u)
  {
    PlainAt(tidy, s, id);
  }

  lemma DeleteRowInner(tidy: bool, s: State, id: nat)
    requires Blind(tidy, s) && id in s.actors && Plain(tidy, s, s.actors[id]) && s.actors[id].pc.DeleteRow?
    ensures Kept(DeleteRowStep(Erase(tidy, s), id, s.actors[id])) && Tokens(Erase(tidy, s))
  {
    Seen(tidy, s);
    PlainAt(tidy, s, id);
    LaunchSteps.DeleteRowKeeps(Erase(tidy, s), id);
  }

  lemma DeleteRowBlind(tidy: bool, s: State, id: nat)
    requires Blind(tidy, s) && Core(s) && id in s.actors && Plain(tidy, s, s.actors[id]) && !IsSave(s.actors[id])
    requires s.actors[id].pc.DeleteRow? && s.actors[id].u in s.rows
    ensures Blind(tidy, DeleteRowStep(s, id, s.actors[id]))
  {
    CoreLocals(s, id);
    DeleteRowInner(tidy, s, id);
    DeleteRowPassive(tidy, s, id);
    DeleteRowErase(tidy, s, id);
    ShedSavesKeeps(tidy, DeleteRowStep(Erase(tidy, s), id, s.actors[id]), s.actors[id].u);
  }

  lemma PlainBlind(tidy: bool, s: State, id: nat, c: Pick)
    requires Blind(tidy, s) && Core(s) && id in s.actors && Plain(tidy, s, s.actors[id]) && KindOk(s.actors[id])
    requires GoEnabled(s, s.actors[id], c) && Minded(tidy, s, id)
    ensures Blind(tidy, GoStep(s, id, c))
  {
    CoreLocals(s, id);
    if Inside(s.actors[id].pc) {
      InsideBlind(tidy, s, id, c);
    } else if s.actors[id].pc.DeleteRow? {
      LateStep(s, id, c);
      DeleteRowBlind(tidy, s, id);
    } else {
      PlainGo(tidy, s, id, c);
      if Late(s.actors[id].pc) {
        LateCommutes(tidy, s, id, c);
      } else {
        EarlyCommutes(tidy, s, id, c);
      }
    }
  }
}
