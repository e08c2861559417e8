/**
Saves of empty disks. As long as every save that has a snapshot open copies an empty disk, and
what is recorded under that name is empty, it does not matter how many there are: each state is
as good as the one in which none of them has opened the snapshot yet.
*/
module HollowSaves {
  import opened Options
  import opened OpTable
  import opened World
  import opened Invariant
  import opened Frames
  import opened Safety
  import opened EveryRun
  import opened Shapes
  import opened Erasure
  import opened MutedSaves
  import opened CarefulRuns
  import opened Guarantees
  import InsideSteps

  // ---------------------------------------------------------------- a step looks at no other operation

  /** The state with other operations beside the one that has moved. */
  function Graft(s': State, others: map<nat, Actor>, id: nat): State {
    s'.(actors := if id in s'.actors then others[id := s'.actors[id]] else others - {id})
  }

  lemma EffectElsewhere(s: State, others: map<nat, Actor>, a: Actor, c: Pick)
    ensures EffectOf(s.(actors := others), a, c) == EffectOf(s, a, c)
  {
  }

  lemma InsideElsewhere(s: State, others: map<nat, Actor>, id: nat, c: Pick)
    requires id in s.actors && id in others && others[id] == s.actors[id] && Inside(s.actors[id].pc)
    ensures GoStep(s.(actors := others), id, c) == Graft(GoStep(s, id, c), others, id)
  {
    EffectElsewhere(s, others, s.actors[id], c);
    InsideStep(s, id, c);
    InsideStep(s.(actors := others), id, c);
  }

  lemma BeginElsewhere(s: State, others: map<nat, Actor>, id: nat, a: Actor, b: Begun)
    ensures AfterBegin(s.(actors := others), id, a, b) == Graft(AfterBegin(s, id, a, b), others, id)
  {
    match b.outcome
    case Busy =>
    case WaitFor(_) =>
    case Granted =>
  }

  lemma ReadElsewhere(s: State, others: map<nat, Actor>, id: nat, a: Actor, c: Pick)
    ensures var s' := s.(actors := others);
      && Become(s', id, ReadHeld(s', a, c)) == Graft(Become(s, id, ReadHeld(s, a, c)), others, id)
      && ReadEarly(s', id, a) == Graft(ReadEarly(s, id, a), others, id)
  {
  }

  lemma BecomeElsewhere(s: State, others: map<nat, Actor>, id: nat, a: Actor)
    ensures Become(s.(actors := others), id, a) == Graft(Become(s, id, a), others, id)
    ensures Leave(s.(actors := others), id) == Graft(Leave(s, id), others, id)
  {
  }

  lemma ExistsElsewhere(s: State, others: map<nat, Actor>, id: nat, a: Actor)
    ensures SnapExistsStep(s.(actors := others), id, a) == Graft(SnapExistsStep(s, id, a), others, id)
  {
    BecomeElsewhere(s, others, id, a.(pc := Read));
  }

  lemma EndElsewhere(s: State, others: map<nat, Actor>, id: nat, a: Actor)
    ensures EndStep(s.(actors := others), id, a) == Graft(EndStep(s, id, a), others, id)
  {
    BecomeElsewhere(s, others, id, a);
  }

  lemma EarlyElsewhere(s: State, others: map<nat, Actor>, id: nat, c: Pick)
    requires id in s.actors && id in others && others[id] == s.actors[id]
    requires var pc := s.actors[id].pc; pc.Begin? || pc.Wait? || pc.Read? || pc.SnapExists? || pc.End?
    ensures GoStep(s.(actors := others), id, c) == Graft(GoStep(s, id, c), others, id)
  {
    var a := s.actors[id];
    EarlyStep(s, id, c);
    EarlyStep(s.(actors := others), id, c);
    match a.pc
    case Begin => BeginElsewhere(s, others, id, a, TryBegin(s.t, a, id));
    case Wait =>
    case Read => ReadElsewhere(s, others, id, a, c);
    case SnapExists => ExistsElsewhere(s, others, id, a);
    case End => EndElsewhere(s, others, id, a);
  }

  lemma LaunchElsewhere(s: State, others: map<nat, Actor>, id: nat, a: Actor, resume: bool)
    ensures var s' := s.(actors := others);
      && LaunchStep(s', id, a, resume) == Graft(LaunchStep(s, id, a, resume), others, id)
      && RegisterStep(s', id, a) == Graft(RegisterStep(s, id, a), others, id)
  {
  }

  lemma AttachElsewhere(s: State, others: map<nat, Actor>, id: nat, a: Actor)
    requires Hot(a.row.name) in s.fs
    ensures AttachStep(s.(actors := others), id, a) == Graft(AttachStep(s, id, a), others, id)
  {
  }

  lemma SettleElsewhere(s: State, others: map<nat, Actor>, id: nat, a: Actor)
    ensures SettleStep(s.(actors := others), id, a) == Graft(SettleStep(s, id, a), others, id)
  {
    if a.resume && a.pid in s.procs && Hot(a.row.name) in s.fs {
      AttachElsewhere(s, others, id, a);
    } else {
      BecomeElsewhere(s, others, id, Done(a));
    }
  }

  lemma RowElsewhere(s: State, others: map<nat, Actor>, id: nat, a: Actor)
    ensures var s' := s.(actors := others);
      && DeleteRowStep(s', id, a) == Graft(DeleteRowStep(s, id, a), others, id)
      && SnapCommitStep(s', id, a) == Graft(SnapCommitStep(s, id, a), others, id)
  {
  }

  lemma LateElsewhere(s: State, others: map<nat, Actor>, id: nat, c: Pick)
    requires id in s.actors && id in others && others[id] == s.actors[id] && Late(s.actors[id].pc)
    ensures GoStep(s.(actors := others), id, c) == Graft(GoStep(s, id, c), others, id)
  {
    var a := s.actors[id];
    LateStep(s, id, c);
    LateStep(s.(actors := others), id, c);
    match a.pc
    case Launch => LaunchElsewhere(s, others, id, a, false);
    case ResumeLaunch => LaunchElsewhere(s, others, id, a, true);
    case Register => LaunchElsewhere(s, others, id, a, false);
    case Settle => SettleElsewhere(s, others, id, a);
    case DeleteRow => RowElsewhere(s, others, id, a);
    case SnapCommit => RowElsewhere(s, others, id, a);
  }

  /** The step of an operation is the same whatever the other operations are at. */
  lemma GoElsewhere(s: State, others: map<nat, Actor>, id: nat, c: Pick)
    requires id in s.actors && id in others && others[id] == s.actors[id]
    ensures GoStep(s.(actors := others), id, c) == Graft(GoStep(s, id, c), others, id)
  {
    var pc := s.actors[id].pc;
    if Inside(pc) {
      InsideElsewhere(s, others, id, c);
    } else if Late(pc) {
      LateElsewhere(s, others, id, c);
    } else {
      EarlyElsewhere(s, others, id, c);
    }
  }

  // ---------------------------------------------------------------- as if not opened yet

  /** The save has this snapshot open. */
  predicate Holds(sn: string, a: Actor) {
    Writing(a) && a.sn == sn
  }

  function Tucked(sn: string, a: Actor): Actor {
    if Holds(sn, a) then a.(pc := SnapOpen) else a
  }

  /** The state in which no save has opened this snapshot yet. */
  function Tuck(sn: string, s: State): State {
    s.(actors := map i | i in s.actors :: Tucked(sn, s.actors[i]))
  }

  /** All that is written or recorded under this name is empty. */
  ghost predicate Hollow(sn: string, s: State) {
    && Snap(sn) in s.fs && s.fs[Snap(sn)] == []
    && (sn in s.snaps ==> s.snaps[sn].logical == Some([]))
    && (forall i :: i in s.actors && Holds(sn, s.actors[i]) ==> s.actors[i].u in s.disk && s.disk[s.actors[i].u] == [])
  }

  lemma TuckNone(sn: string, s: State)
    requires forall i :: i in s.actors ==> !Holds(sn, s.actors[i])
    ensures Tuck(sn, s) == s
  {
    assert Tuck(sn, s).actors == s.actors;
  }

  lemma TuckMove(sn: string, s: State, s': State, id: nat)
    requires id in s.actors && id in s'.actors && s'.actors == s.actors[id := s'.actors[id]]
    ensures Tuck(sn, s') == s'.(actors := Tuck(sn, s).actors[id := Tucked(sn, s'.actors[id])])
  {
    assert Tuck(sn, s').actors == Tuck(sn, s).actors[id := Tucked(sn, s'.actors[id])];
  }

  lemma TuckLeave(sn: string, s: State, s': State, id: nat)
    requires id in s.actors && s'.actors == s.actors - {id}
    ensures Tuck(sn, s') == s'.(actors := Tuck(sn, s).actors - {id})
  {
    assert Tuck(sn, s').actors == Tuck(sn, s).actors - {id};
  }

  lemma TuckGraft(sn: string, s: State, s': State, id: nat)
    requires id in s.actors && s' == Graft(s', s.actors, id) && (id in s'.actors ==> !Holds(sn, s'.actors[id]))
    ensures Tuck(sn, s') == Graft(s', Tuck(sn, s).actors, id)
  {
    if id in s'.actors {
      TuckMove(sn, s, s', id);
    } else {
      TuckLeave(sn, s, s', id);
    }
  }

  /** A step of another operation is the same in the tucked state. */
  lemma TuckGo(sn: string, s: State, id: nat, c: Pick)
    requires id in s.actors && !Holds(sn, s.actors[id])
    requires id in GoStep(s, id, c).actors ==> !Holds(sn, GoStep(s, id, c).actors[id])
    ensures id in Tuck(sn, s).actors && Tuck(sn, GoStep(s, id, c)) == GoStep(Tuck(sn, s), id, c)
  {
    assert s.(actors := s.actors) == s;
    GoElsewhere(s, s.actors, id, c);
    GoElsewhere(s, Tuck(sn, s).actors, id, c);
    TuckGraft(sn, s, GoStep(s, id, c), id);
  }

  lemma TuckAt(sn: string, s: State, id: nat)
    requires id in s.actors
    ensures id in Tuck(sn, s).actors && Tuck(sn, s).actors[id] == Tucked(sn, s.actors[id])
  {
  }

  // ---------------------------------------------------------------- going back to before the open

  /** A save that has opened its snapshot, or is about to, is as well informed before it opens it. */
  lemma BackView(v: View, a: Actor, a': Actor)
    requires ViewOk(v, a) && (a.pc.SnapOpen? || Writing(a)) && a' == a.(pc := SnapOpen, i := a'.i)
    ensures ViewOk(v, a') && LocalsOk(a) == LocalsOk(a')
  {
  }

  lemma BackGood(e: State, a: Actor, a': Actor)
    requires Knows(e, a) && (a.pc.SnapOpen? || Writing(a)) && a' == a.(pc := SnapOpen, i := a'.i)
    ensures InsideSteps.Good(e, a, Goto(a'))
  {
    BackView(ViewOf(e, a), a, a');
    InsideSteps.GotoGood(e, a, a');
  }

  lemma BackInner(e: State, id: nat, a': Actor)
    requires Inv(e) && id in e.actors && (e.actors[id].pc.SnapOpen? || Writing(e.actors[id]))
    requires a' == e.actors[id].(pc := SnapOpen, i := a'.i)
    ensures Inv(Become(e, id, a'))
  {
    LocalsAt(e, id);
    HolderKnows(e, id);
    BackGood(e, e.actors[id], a');
    FineKeeps(e, id, Goto(a'));
    assert Perform(e, id, Goto(a')) == Become(e, id, a');
  }

  lemma SourceKnows(e: State, a: Actor)
    requires PcOk(e, a) && (a.pc.SnapOpen? || Writing(a)) && a.u in e.disk
    ensures (a.src.Hot? || a.src.Cold?) && a.src in e.fs && e.fs[a.src] == e.disk[a.u]
    ensures Writing(a) ==> Snap(a.sn) in e.fs && |e.fs[Snap(a.sn)]| <= |e.disk[a.u]|
  {
  }

  /** What a save of a VM with a disk reads. */
  lemma SourceIs(s: State, id: nat)
    requires Safe(true, s) && id in s.actors && (s.actors[id].pc.SnapOpen? || Writing(s.actors[id]))
    requires s.actors[id].u in s.disk
    ensures var a := s.actors[id];
      && Plain(true, s, a) && (a.src.Hot? || a.src.Cold?) && a.src in s.fs && s.fs[a.src] == s.disk[a.u]
      && (Writing(a) ==> Snap(a.sn) in s.fs && |s.fs[Snap(a.sn)]| <= |s.disk[a.u]|)
  {
    assert ShapeOk(s.cfg, s.actors[id]);
    SafeDisk(true, s, s.actors[id].u);
    PlainPc(true, s, id);
    SourceKnows(Erase(true, s), s.actors[id]);
  }

  lemma BackErase(s: State, id: nat, a': Actor)
    requires id in s.actors && Plain(true, s, s.actors[id]) && (s.actors[id].pc.SnapOpen? || Writing(s.actors[id]))
    requires a' == s.actors[id].(pc := SnapOpen, i := a'.i)
    ensures Erase(true, Become(s, id, a')) == Become(Erase(true, s), id, a')
  {
    MoveErase(true, s, id, a', s.t);
    assert Become(s, id, a').(t := s.t) == Become(s, id, a');
  }

  lemma BackBlind(s: State, id: nat, a': Actor)
    requires Blind(true, s) && id in s.actors && (s.actors[id].pc.SnapOpen? || Writing(s.actors[id]))
    requires Plain(true, s, s.actors[id]) && a' == s.actors[id].(pc := SnapOpen, i := a'.i)
    ensures Blind(true, Become(s, id, a'))
  {
    Seen(true, s);
    PlainAt(true, s, id);
    BackInner(Erase(true, s), id, a');
    BackErase(s, id, a');
  }

  lemma BackOnward(a: Actor, a': Actor)
    requires LocalsOk(a) && (a.pc.SnapOpen? || Writing(a)) && a' == a.(pc := SnapOpen, i := a'.i)
    ensures Onward(a, a')
  {
  }

  lemma BackCore(s: State, id: nat, a': Actor)
    requires Core(s) && id in s.actors && (s.actors[id].pc.SnapOpen? || Writing(s.actors[id]))
    requires a' == s.actors[id].(pc := SnapOpen, i := a'.i)
    ensures Core(Become(s, id, a'))
  {
    CoreLocals(s, id);
    BackOnward(s.actors[id], a');
    MovedKeeps(s, Become(s, id, a'), id);
  }

  lemma BackShape(s: State, id: nat, a': Actor)
    requires Shaped(s) && id in s.actors && (s.actors[id].pc.SnapOpen? || Writing(s.actors[id]))
    requires a' == s.actors[id].(pc := SnapOpen, i := a'.i) && (a'.src.Hot? || a'.src.Cold?)
    ensures Shaped(Become(s, id, a'))
  {
    assert ShapeOk(s.cfg, s.actors[id]);
    BecomeShape(s, Become(s, id, a'), id, a');
    ShapeStepKeeps(s, Become(s, id, a'));
  }

  lemma BackSafe(s: State, id: nat, a': Actor)
    requires Safe(true, s) && id in s.actors && (s.actors[id].pc.SnapOpen? || Writing(s.actors[id]))
    requires s.actors[id].u in s.disk && a' == s.actors[id].(pc := SnapOpen, i := a'.i)
    ensures Safe(true, Become(s, id, a'))
  {
    SourceIs(s, id);
    BackCore(s, id, a');
    BackShape(s, id, a');
    PenMove(s, Become(s, id, a'), id);
    BackBlind(s, id, a');
  }

  // ---------------------------------------------------------------- recording a truthful snapshot

  lemma RecordBlind(s: State, sn: string, saved: Saved)
    requires Blind(true, s) && Shaped(s) && sn !in s.snaps && Truthful(s.fs, sn, saved)
    requires forall i :: i in s.actors ==> !Holds(sn, s.actors[i])
    ensures Blind(true, s.(snaps := s.snaps[sn := saved]))
  {
    var s' := s.(snaps := s.snaps[sn := saved]);
    Seen(true, s);
    EraseSame(true, s, s');
    forall i | i in Erase(true, s).actors && Writing(Erase(true, s).actors[i]) ensures Erase(true, s).actors[i].sn != sn {
      assert ShapeOk(s.cfg, s.actors[i]);
      ShedWriting(true, s, s.actors[i]);
    }
    SnapFilesKeep(Erase(true, s), Erase(true, s'), sn);
  }

  lemma RecordSafe(s: State, sn: string, saved: Saved)
    requires Safe(true, s) && sn !in s.snaps && Truthful(s.fs, sn, saved)
    requires forall i :: i in s.actors ==> !Holds(sn, s.actors[i])
    ensures Safe(true, s.(snaps := s.snaps[sn := saved]))
  {
    SameSound(s, s.(snaps := s.snaps[sn := saved]));
    RecordBlind(s, sn, saved);
  }

  // ---------------------------------------------------------------- nothing touches what is empty

  lemma NeverOpens(s: State, a: Actor, c: Pick)
    requires !IsSave(a) && KindOk(a) && LocalsOk(a) && Inside(a.pc)
    ensures !Open(a, EffectOf(s, a, c))
  {
    InsideOnward(s, a, c);
  }

  lemma ContainedKeepsSnap(s: State, a: Actor, e: Effect, sn: string)
    requires Contained(s, a, e) && !Open(a, e)
    ensures FsSame(s.fs, OnFiles(s.fs, e.file), Snap(sn))
  {
    OwnFileFrame(s.fs, e.file, a, false, Snap(sn));
  }

  lemma PlainKeepsSnap(s: State, id: nat, c: Pick, sn: string)
    requires Blind(true, s) && id in s.actors && Plain(true, s, s.actors[id]) && !IsSave(s.actors[id])
    requires KindOk(s.actors[id]) && LocalsOk(s.actors[id]) && Inside(s.actors[id].pc) && GoEnabled(s, s.actors[id], c)
    ensures FsSame(s.fs, GoStep(s, id, c).fs, Snap(sn))
  {
    var a, e := s.actors[id], Erase(true, s);
    Seen(true, s);
    PlainAt(true, s, id);
    SameEnabled(true, s, a, c);
    InsideContained(e, id, c);
    NeverOpens(e, a, c);
    ContainedKeepsSnap(e, a, EffectOf(e, a, c), sn);
    SameEffect(true, s, a, c);
    InsideStep(s, id, c);
  }

  lemma SaveKeepsSnap(s: State, id: nat, c: Pick, sn: string)
    requires id in s.actors && IsSave(s.actors[id]) && KindOk(s.actors[id]) && Inside(s.actors[id].pc)
    requires s.actors[id].sn == sn ==> s.actors[id].pc.SnapCheck? || s.actors[id].pc.SnapResolve?
    ensures FsSame(s.fs, GoStep(s, id, c).fs, Snap(sn))
  {
    SavePcs(s.actors[id]);
    SaveEffect(s, s.actors[id], c);
    InsideStep(s, id, c);
  }

  lemma ParkedKeepsSnap(s: State, id: nat, c: Pick, sn: string)
    requires Shaped(s) && id in s.actors && Parked(s, s.actors[id]) && GoEnabled(s, s.actors[id], c)
    ensures FsSame(s.fs, GoStep(s, id, c).fs, Snap(sn))
  {
    ParkedStep(s, id, c);
  }

  lemma InsideKeepsSnap(s: State, id: nat, c: Pick, sn: string)
    requires Blind(true, s) && Shaped(s) && id in s.actors && KindOk(s.actors[id]) && LocalsOk(s.actors[id])
    requires Inside(s.actors[id].pc) && GoEnabled(s, s.actors[id], c)
    requires s.actors[id].sn == sn ==> !s.actors[id].pc.SnapOpen? && !Writing(s.actors[id])
    ensures FsSame(s.fs, GoStep(s, id, c).fs, Snap(sn))
  {
    if IsSave(s.actors[id]) {
      SaveKeepsSnap(s, id, c, sn);
    } else if Parked(s, s.actors[id]) {
      ParkedKeepsSnap(s, id, c, sn);
    } else {
      PlainKeepsSnap(s, id, c, sn);
    }
  }

  /** No step of an operation touches a snapshot's file that it has not open and does not open. */
  lemma GoKeepsSnap(s: State, id: nat, c: Pick, sn: string)
    requires Safe(true, s) && id in s.actors && GoEnabled(s, s.actors[id], c)
    requires s.actors[id].sn == sn ==> !s.actors[id].pc.SnapOpen? && !Writing(s.actors[id])
    ensures FsSame(s.fs, GoStep(s, id, c).fs, Snap(sn))
  {
    assert ShapeOk(s.cfg, s.actors[id]);
    CoreLocals(s, id);
    if Inside(s.actors[id].pc) {
      InsideKeepsSnap(s, id, c, sn);
    } else {
      OutsideFiles(s, id, c);
    }
  }

  /** While a save holds its VM's token, nobody touches that VM's content. */
  lemma HolderUntouched(s: State, l: Label, id: nat)
    requires Core(s) && Enabled(s, l) && id in s.actors && s.actors[id].pc.SnapOpen?
    ensures !Touches(s, l, s.actors[id].u)
  {
    ActorAt(s, id);
    forall i | i in s.actors && i != id && (s.actors[i].pc.DeleteHot? || s.actors[i].pc.Edit?)
      ensures s.actors[i].u != s.actors[id].u
    {
      CoreLocals(s, i);
      Alone(s, id, i);
    }
  }

  // ---------------------------------------------------------------- steps of the saves in question

  /** All is empty under this name, and all is well in the state in which nobody has opened it yet. */
  ghost predicate Harmless(sn: string, s: State) {
    Safe(true, Tuck(sn, s)) && Hollow(sn, s)
  }

  lemma EmptyCopy(s: State, id: nat, c: Pick)
    requires id in s.actors && s.actors[id].pc.SnapCopy? && At(s.fs, s.actors[id].src) == []
    ensures GoStep(s, id, c) == Become(s, id, s.actors[id].(pc := SnapCommit))
  {
    InsideStep(s, id, c);
  }

  lemma TuckedSource(sn: string, s: State, id: nat)
    requires Harmless(sn, s) && id in s.actors && Holds(sn, s.actors[id])
    ensures At(s.fs, s.actors[id].src) == []
  {
    TuckAt(sn, s, id);
    SourceIs(Tuck(sn, s), id);
  }

  lemma TuckSame(sn: string, s: State, s': State, id: nat)
    requires id in s.actors && id in s'.actors && s' == s.(actors := s.actors[id := s'.actors[id]])
    requires Tucked(sn, s'.actors[id]) == Tucked(sn, s.actors[id])
    ensures Tuck(sn, s') == Tuck(sn, s)
  {
    assert Tuck(sn, s').actors == Tuck(sn, s).actors;
  }

  lemma CopyHarmless(sn: string, s: State, id: nat, c: Pick)
    requires Harmless(sn, s) && id in s.actors && Holds(sn, s.actors[id]) && s.actors[id].pc.SnapCopy?
    ensures Harmless(sn, GoStep(s, id, c))
  {
    TuckedSource(sn, s, id);
    EmptyCopy(s, id, c);
    TuckSame(sn, s, GoStep(s, id, c), id);
  }

  lemma FailTucked(sn: string, s: State, id: nat)
    requires id in s.actors && Holds(sn, s.actors[id]) && s.actors[id].held
    ensures var t := Tuck(sn, s);
      && id in t.actors && Enabled(t, Fail(id)) && Apply(t, Fail(id)) == Become(t, id, Done(s.actors[id]))
      && FailTo(s.actors[id]) == Done(s.actors[id])
  {
    TuckAt(sn, s, id);
  }

  lemma DoneSafe(sn: string, s: State, id: nat)
    requires Harmless(sn, s) && id in s.actors && Holds(sn, s.actors[id])
    ensures s.actors[id].held && Safe(true, Become(Tuck(sn, s), id, Done(s.actors[id])))
  {
    TuckAt(sn, s, id);
    CoreLocals(Tuck(sn, s), id);
    FailTucked(sn, s, id);
    StepSafe(true, Tuck(sn, s), Fail(id));
  }

  lemma DoneTuck(sn: string, s: State, id: nat)
    requires id in s.actors
    ensures Tuck(sn, Become(s, id, Done(s.actors[id]))) == Become(Tuck(sn, s), id, Done(s.actors[id]))
  {
    TuckMove(sn, s, Become(s, id, Done(s.actors[id])), id);
  }

  lemma DoneHollow(sn: string, s: State, id: nat)
    requires Hollow(sn, s) && id in s.actors
    ensures Hollow(sn, Become(s, id, Done(s.actors[id])))
  {
  }

  lemma FailHarmless(sn: string, s: State, id: nat)
    requires Harmless(sn, s) && id in s.actors && Holds(sn, s.actors[id])
    ensures Harmless(sn, Become(s, id, Done(s.actors[id])))
  {
    DoneSafe(sn, s, id);
    DoneTuck(sn, s, id);
    DoneHollow(sn, s, id);
  }

  lemma CommitTuck(sn: string, s: State, id: nat)
    requires id in s.actors && Holds(sn, s.actors[id])
    ensures var a, s' := s.actors[id], SnapCommitStep(s, id, s.actors[id]);
      Tuck(sn, s') == Become(Tuck(sn, s), id, Done(a)).(snaps := s'.snaps)
  {
    TuckMove(sn, s, SnapCommitStep(s, id, s.actors[id]), id);
  }

  lemma NoneHold(sn: string, s: State, id: nat)
    requires id in s.actors
    ensures forall i :: i in Tuck(sn, s).actors ==> !Holds(sn, Tuck(sn, s).actors[i])
  {
  }

  lemma CommitHarmless(sn: string, s: State, id: nat)
    requires Harmless(sn, s) && id in s.actors && Holds(sn, s.actors[id]) && sn !in s.snaps
    ensures Harmless(sn, SnapCommitStep(s, id, s.actors[id]))
  {
    DoneSafe(sn, s, id);
    NoneHold(sn, s, id);
    RecordSafe(Become(Tuck(sn, s), id, Done(s.actors[id])), sn, Saved(s.actors[id].u, Some([])));
    CommitTuck(sn, s, id);
  }

  lemma HolderHarmless(sn: string, s: State, id: nat, c: Pick)
    requires Harmless(sn, s) && id in s.actors && Holds(sn, s.actors[id]) && GoEnabled(s, s.actors[id], c)
    ensures Harmless(sn, GoStep(s, id, c))
  {
    if s.actors[id].pc.SnapCopy? {
      CopyHarmless(sn, s, id, c);
    } else {
      LateStep(s, id, c);
      CommitHarmless(sn, s, id);
    }
  }

  // ---------------------------------------------------------------- steps of everybody else

  /** The step is not one of a save that has this snapshot open, or opens it. */
  predicate Elsewhere(sn: string, s: State, l: Label) {
    && (l.Go? && l.id in s.actors ==>
          !Holds(sn, s.actors[l.id]) && (s.actors[l.id].pc.SnapOpen? ==> s.actors[l.id].sn != sn))
    && (l.Fail? && l.id in s.actors ==> !Holds(sn, s.actors[l.id]))
  }

  lemma FreshTucked(sn: string, s: State, u: Uuid)
    requires Fresh(s, u)
    ensures Fresh(Tuck(sn, s), u)
  {
  }

  lemma EnabledTucked(sn: string, s: State, l: Label)
    requires Elsewhere(sn, s, l) && Enabled(s, l)
    ensures Enabled(Tuck(sn, s), l)
  {
    if l.Create? {
      FreshTucked(sn, s, l.u);
    }
  }

  lemma CarefulTucked(sn: string, s: State, l: Label)
    requires Elsewhere(sn, s, l) && Careful(s, l) && Tidy(s, l)
    ensures Careful(Tuck(sn, s), l) && Tidy(Tuck(sn, s), l)
  {
  }

  lemma GoStaysOut(sn: string, s: State, id: nat, c: Pick)
    requires id in s.actors && LocalsOk(s.actors[id]) && Elsewhere(sn, s, Go(id, c))
    ensures id in GoStep(s, id, c).actors ==> !Holds(sn, GoStep(s, id, c).actors[id])
  {
    var pc := s.actors[id].pc;
    if Inside(pc) {
      InsideStep(s, id, c);
      InsideOnward(s, s.actors[id], c);
    } else if pc.SnapCommit? {
      LateStep(s, id, c);
    } else if Late(pc) {
      LateClosed(s, id, c);
    } else {
      EarlyClosed(s, id, c);
    }
  }

  lemma SpawnTucked(sn: string, s: State, a: Actor)
    requires !Writing(a)
    ensures Tuck(sn, SpawnStep(s, a)) == SpawnStep(Tuck(sn, s), a)
  {
    assert Tuck(sn, SpawnStep(s, a)).actors == SpawnStep(Tuck(sn, s), a).actors;
  }

  lemma FailedTucked(sn: string, s: State, id: nat)
    requires id in s.actors && !Holds(sn, s.actors[id])
    ensures id in Tuck(sn, s).actors && Tuck(sn, Failed(s, id)) == Failed(Tuck(sn, s), id)
  {
    TuckAt(sn, s, id);
    FailCloses(s.actors[id]);
    TuckGraft(sn, s, Failed(s, id), id);
  }

  lemma CrashTucked(sn: string, s: State)
    ensures Tuck(sn, CrashStep(s)) == CrashStep(Tuck(sn, s))
  {
    assert Tuck(sn, CrashStep(s)).actors == map[];
  }

  lemma ReapTucked(sn: string, s: State, pid: nat)
    requires pid in s.reapers
    ensures Tuck(sn, SeeExit(s, pid)) == SeeExit(Tuck(sn, s), pid)
    ensures Tuck(sn, DropEntry(s, pid)) == DropEntry(Tuck(sn, s), pid)
  {
  }

  lemma CreateTucked(sn: string, s: State, u: Uuid, name: string, image: Option<Content>)
    ensures Tuck(sn, CreateStep(s, u, name, image)) == CreateStep(Tuck(sn, s), u, name, image)
  {
  }

  lemma EnvTucked(sn: string, s: State, l: Label)
    requires !l.Go? && Elsewhere(sn, s, l) && Enabled(s, l) && Enabled(Tuck(sn, s), l)
    ensures Tuck(sn, Apply(s, l)) == Apply(Tuck(sn, s), l)
  {
    match l
    case Spawn(kind, u, n) => SpawnTucked(sn, s, Request(kind, u, n));
    case Fail(id) => FailedTucked(sn, s, id);
    case Exit(_) =>
    case GuestWrite(_, _) =>
    case Reap(pid) => ReapTucked(sn, s, pid);
    case SetState(_, _) =>
    case Create(u, name, image) => CreateTucked(sn, s, u, name, image);
    case Crash => CrashTucked(sn, s);
  }

  lemma GoTucked(sn: string, s: State, id: nat, c: Pick)
    requires id in s.actors && LocalsOk(s.actors[id]) && Elsewhere(sn, s, Go(id, c))
    ensures id in Tuck(sn, s).actors && Tuck(sn, GoStep(s, id, c)) == GoStep(Tuck(sn, s), id, c)
  {
    GoStaysOut(sn, s, id, c);
    TuckGo(sn, s, id, c);
  }

  /** Everybody else's step leads to a good state if the tucked one was good. */
  lemma ElsewhereSafe(sn: string, s: State, l: Label)
    requires Safe(true, Tuck(sn, s)) && Elsewhere(sn, s, l) && Enabled(s, l) && Careful(s, l) && Tidy(s, l)
    ensures Safe(true, Tuck(sn, Apply(s, l)))
  {
    EnabledTucked(sn, s, l);
    CarefulTucked(sn, s, l);
    StepSafe(true, Tuck(sn, s), l);
    if l.Go? {
      TuckAt(sn, s, l.id);
      CoreLocals(Tuck(sn, s), l.id);
      GoTucked(sn, s, l.id, l.pick);
    } else {
      EnvTucked(sn, s, l);
    }
  }

  lemma HollowKept(sn: string, s: State, s': State)
    requires Hollow(sn, s) && FsSame(s.fs, s'.fs, Snap(sn))
    requires sn in s'.snaps ==> sn in s.snaps && s'.snaps[sn] == s.snaps[sn]
    requires forall i :: i in s'.actors && Holds(sn, s'.actors[i]) ==>
      && i in s.actors && s'.actors[i] == s.actors[i]
      && (s.actors[i].u in s.disk ==> s.actors[i].u in s'.disk && s'.disk[s.actors[i].u] == s.disk[s.actors[i].u])
    ensures Hollow(sn, s')
  {
  }

  lemma GoElsewhereFiles(sn: string, s: State, id: nat, c: Pick)
    requires Safe(true, Tuck(sn, s)) && id in s.actors && Elsewhere(sn, s, Go(id, c)) && GoEnabled(s, s.actors[id], c)
    ensures FsSame(s.fs, GoStep(s, id, c).fs, Snap(sn))
  {
    EnabledTucked(sn, s, Go(id, c));
    TuckAt(sn, s, id);
    GoKeepsSnap(Tuck(sn, s), id, c, sn);
    CoreLocals(Tuck(sn, s), id);
    GoTucked(sn, s, id, c);
  }

  lemma WriteKeepsSnap(sn: string, s: State, pid: nat, data: Content)
    requires pid in s.procs
    ensures FsSame(s.fs, GuestWriteStep(s, pid, data).fs, Snap(sn))
  {
  }

  lemma CreateKeepsSnap(sn: string, s: State, u: Uuid, name: string, image: Option<Content>)
    ensures FsSame(s.fs, CreateStep(s, u, name, image).fs, Snap(sn))
  {
  }

  lemma EnvKeepsSnap(sn: string, s: State, l: Label)
    requires !l.Go? && Enabled(s, l)
    ensures FsSame(s.fs, Apply(s, l).fs, Snap(sn))
  {
    if l.GuestWrite? {
      WriteKeepsSnap(sn, s, l.pid, l.data);
    } else if l.Create? {
      CreateKeepsSnap(sn, s, l.u, l.name, l.image);
    } else {
      EnvFiles(s, l);
    }
  }

  lemma ElsewhereFiles(sn: string, s: State, l: Label)
    requires Safe(true, Tuck(sn, s)) && Elsewhere(sn, s, l) && Enabled(s, l)
    ensures FsSame(s.fs, Apply(s, l).fs, Snap(sn))
  {
    if l.Go? {
      GoElsewhereFiles(sn, s, l.id, l.pick);
    } else {
      EnvKeepsSnap(sn, s, l);
    }
  }

  lemma GoElsewhereSnaps(sn: string, s: State, id: nat, c: Pick)
    requires id in s.actors && !Holds(sn, s.actors[id]) && sn !in s.snaps
    ensures sn !in GoStep(s, id, c).snaps
  {
    var pc := s.actors[id].pc;
    if Inside(pc) {
      InsideStep(s, id, c);
    } else if pc.Begin? || pc.Wait? || pc.Read? || pc.SnapExists? || pc.End? {
      TableStepOnly(s, id, c);
    } else {
      LateStep(s, id, c);
    }
  }

  lemma ElsewhereSnaps(sn: string, s: State, l: Label)
    requires Elsewhere(sn, s, l) && Enabled(s, l)
    ensures sn in Apply(s, l).snaps ==> sn in s.snaps && Apply(s, l).snaps[sn] == s.snaps[sn]
  {
    if sn in s.snaps {
      Guarantees.StepSnaps(s, l, sn);
    } else if l.Go? {
      GoElsewhereSnaps(sn, s, l.id, l.pick);
    }
  }

  lemma ElsewhereDisk(sn: string, s: State, l: Label, i: nat)
    requires Safe(true, Tuck(sn, s)) && Elsewhere(sn, s, l) && Enabled(s, l)
    requires i in s.actors && Holds(sn, s.actors[i]) && s.actors[i].u in s.disk
    ensures s.actors[i].u in Apply(s, l).disk && Apply(s, l).disk[s.actors[i].u] == s.disk[s.actors[i].u]
  {
    EnabledTucked(sn, s, l);
    TuckAt(sn, s, i);
    HolderUntouched(Tuck(sn, s), l, i);
    if l.Go? {
      TuckAt(sn, s, l.id);
    }
    ContentKept(s, l, s.actors[i].u);
  }

  lemma FailedClosed(s: State, id: nat)
    requires id in s.actors
    ensures Closed(s, Failed(s, id), id)
  {
    var a' := FailTo(s.actors[id]);
    FailCloses(s.actors[id]);
    if s.actors[id].held {
      BecomeClosed(s, Become(s, id, a'), id, a');
    } else {
      LeaveClosed(s, Leave(s, id), id);
    }
  }

  lemma SameActors(s: State, l: Label)
    requires Enabled(s, l) && (l.Exit? || l.GuestWrite? || l.Reap? || l.SetState? || l.Create?)
    ensures Apply(s, l).actors == s.actors
  {
    match l
    case Exit(_) =>
    case GuestWrite(_, _) =>
    case Reap(_) =>
    case SetState(_, _) =>
    case Create(_, _, _) =>
  }

  lemma EnvHolders(sn: string, s: State, l: Label, i: nat)
    requires !l.Go? && Enabled(s, l) && i in Apply(s, l).actors && Holds(sn, Apply(s, l).actors[i])
    ensures i in s.actors && Apply(s, l).actors[i] == s.actors[i]
  {
    match l
    case Spawn(_, _, _) =>
    case Fail(id) => FailedClosed(s, id);
    case Exit(_) => SameActors(s, l);
    case GuestWrite(_, _) => SameActors(s, l);
    case Reap(_) => SameActors(s, l);
    case SetState(_, _) => SameActors(s, l);
    case Create(_, _, _) => SameActors(s, l);
    case Crash =>
  }

  lemma GoHolders(sn: string, s: State, id: nat, c: Pick, i: nat)
    requires id in s.actors && LocalsOk(s.actors[id]) && Elsewhere(sn, s, Go(id, c))
    requires i in GoStep(s, id, c).actors && Holds(sn, GoStep(s, id, c).actors[i])
    ensures i in s.actors && GoStep(s, id, c).actors[i] == s.actors[i]
  {
    GoStaysOut(sn, s, id, c);
    assert s.(actors := s.actors) == s;
    GoElsewhere(s, s.actors, id, c);
  }

  lemma ElsewhereHolders(sn: string, s: State, l: Label, i: nat)
    requires Safe(true, Tuck(sn, s)) && Elsewhere(sn, s, l) && Enabled(s, l)
    requires i in Apply(s, l).actors && Holds(sn, Apply(s, l).actors[i])
    ensures i in s.actors && Apply(s, l).actors[i] == s.actors[i]
  {
    if l.Go? {
      TuckAt(sn, s, l.id);
      CoreLocals(Tuck(sn, s), l.id);
      GoHolders(sn, s, l.id, l.pick, i);
    } else {
      EnvHolders(sn, s, l, i);
    }
  }

  lemma ElsewhereHollow(sn: string, s: State, l: Label)
    requires Harmless(sn, s) && Elsewhere(sn, s, l) && Enabled(s, l)
    ensures Hollow(sn, Apply(s, l))
  {
    var s' := Apply(s, l);
    ElsewhereFiles(sn, s, l);
    ElsewhereSnaps(sn, s, l);
    forall i | i in s'.actors && Holds(sn, s'.actors[i])
      ensures i in s.actors && s'.actors[i] == s.actors[i]
      ensures s.actors[i].u in s.disk ==> s.actors[i].u in s'.disk && s'.disk[s.actors[i].u] == s.disk[s.actors[i].u]
    {
      ElsewhereHolders(sn, s, l, i);
      if s.actors[i].u in s.disk {
        ElsewhereDisk(sn, s, l, i);
      }
    }
    HollowKept(sn, s, s');
  }

  // ---------------------------------------------------------------- every step, every run

  /** All is well, or would be if nobody had opened this empty snapshot yet. */
  ghost predicate Unharmed(sn: string, s: State) {
    Safe(true, s) || Harmless(sn, s)
  }

  lemma NoHolders(sn: string, s: State, id: nat)
    requires id in s.actors && s.actors[id].pc.SnapOpen? && s.actors[id].sn == sn && MayOpen(s, id)
    ensures Tuck(sn, s) == s
  {
    TuckNone(sn, s);
  }

  lemma GoUnharmed(sn: string, s: State, id: nat, c: Pick)
    requires Harmless(sn, s) && id in s.actors && GoEnabled(s, s.actors[id], c) && Guarded(s, id)
    requires Holds(sn, s.actors[id]) || (s.actors[id].pc.SnapOpen? && s.actors[id].sn == sn)
    ensures Unharmed(sn, GoStep(s, id, c))
  {
    if Holds(sn, s.actors[id]) {
      HolderHarmless(sn, s, id, c);
    } else {
      NoHolders(sn, s, id);
      StepSafe(true, s, Go(id, c));
    }
  }

  lemma HolderFailed(s: State, id: nat)
    requires id in s.actors && Writing(s.actors[id]) && s.actors[id].held
    ensures Failed(s, id) == Become(s, id, Done(s.actors[id]))
  {
  }

  lemma FailUnharmed(sn: string, s: State, id: nat)
    requires Harmless(sn, s) && id in s.actors && Holds(sn, s.actors[id])
    ensures Harmless(sn, Failed(s, id))
  {
    DoneSafe(sn, s, id);
    HolderFailed(s, id);
    FailHarmless(sn, s, id);
  }

  lemma HarmlessStep(sn: string, s: State, l: Label)
    requires Harmless(sn, s) && Enabled(s, l) && Careful(s, l) && Tidy(s, l)
    ensures Unharmed(sn, Apply(s, l))
  {
    if Elsewhere(sn, s, l) {
      ElsewhereSafe(sn, s, l);
      ElsewhereHollow(sn, s, l);
    } else if l.Fail? {
      FailUnharmed(sn, s, l.id);
    } else {
      GoUnharmed(sn, s, l.id, l.pick);
    }
  }

  lemma {:induction false} HarmlessRun(sn: string, s: State, ls: seq<Label>)
    requires Unharmed(sn, s) && Executable(s, ls) && CarefulRun(true, s, ls)
    ensures Unharmed(sn, Run(s, ls))
    decreases |ls|
  {
    if ls != [] {
      if Safe(true, s) {
        StepSafe(true, s, ls[0]);
      } else {
        HarmlessStep(sn, s, ls[0]);
      }
      HarmlessRun(sn, Apply(s, ls[0]), ls[1..]);
    }
  }

  // ---------------------------------------------------------------- opening an empty snapshot once more

  /** The save's disk is empty, and so is all that is recorded or being written under its snapshot's name. */
  predicate AllEmpty(s: State, id: nat)
    requires id in s.actors
  {
    var a := s.actors[id];
    && At(s.fs, a.src) == []
    && (a.sn in s.snaps ==> s.snaps[a.sn].logical == Some([]))
    && (forall j :: j in s.actors && j != id && Holds(a.sn, s.actors[j]) ==>
          s.actors[j].u in s.disk && s.disk[s.actors[j].u] == [])
  }

  lemma RecordedEmpty(s: State, sn: string)
    requires Safe(true, s) && sn in s.snaps && s.snaps[sn].logical == Some([])
    ensures Snap(sn) in s.fs && s.fs[Snap(sn)] == []
  {
    Seen(true, s);
  }

  lemma FileEmpty(s: State, id: nat)
    requires Safe(true, s) && id in s.actors && AllEmpty(s, id) && !MayOpen(s, id)
    ensures Snap(s.actors[id].sn) in s.fs && s.fs[Snap(s.actors[id].sn)] == []
  {
    if s.actors[id].sn in s.snaps {
      RecordedEmpty(s, s.actors[id].sn);
    } else {
      var j :| j in s.actors && j != id && Writing(s.actors[j]) && s.actors[j].sn == s.actors[id].sn;
      SourceIs(s, j);
    }
  }

  lemma OpenEmpty(s: State, id: nat, c: Pick)
    requires id in s.actors && s.actors[id].pc.SnapOpen?
    requires Snap(s.actors[id].sn) in s.fs && s.fs[Snap(s.actors[id].sn)] == []
    ensures GoStep(s, id, c) == Become(s, id, s.actors[id].(pc := SnapCopy, i := 0))
  {
    InsideStep(s, id, c);
    assert s.fs[Snap(s.actors[id].sn) := []] == s.fs;
  }

  lemma TuckOne(sn: string, s: State, j: nat)
    requires j in s.actors && Holds(sn, s.actors[j])
    requires forall i :: i in s.actors && i != j ==> !Holds(sn, s.actors[i])
    ensures Tuck(sn, s) == Become(s, j, s.actors[j].(pc := SnapOpen))
  {
    assert Tuck(sn, s).actors == s.actors[j := s.actors[j].(pc := SnapOpen)];
  }

  /** Tucking the one save that has the snapshot open leaves all well. */
  lemma TuckSafe(sn: string, s: State)
    requires Safe(true, s)
    requires forall i :: i in s.actors && Holds(sn, s.actors[i]) ==> s.actors[i].u in s.disk
    ensures Safe(true, Tuck(sn, s))
  {
    if j :| j in s.actors && Holds(sn, s.actors[j]) {
      forall i | i in s.actors && i != j ensures !Holds(sn, s.actors[i]) {
        assert OneFile(s.actors[i], s.actors[j]) ==> i == j;
      }
      TuckOne(sn, s, j);
      BackSafe(s, j, s.actors[j].(pc := SnapOpen));
    } else {
      TuckNone(sn, s);
    }
  }

  lemma TuckOpened(s: State, id: nat)
    requires id in s.actors && s.actors[id].pc.SnapOpen?
    ensures var a := s.actors[id];
      Tuck(a.sn, Become(s, id, a.(pc := SnapCopy, i := 0))) == Tuck(a.sn, Become(s, id, a.(i := 0)))
  {
    var a := s.actors[id];
    assert Tuck(a.sn, Become(s, id, a.(pc := SnapCopy, i := 0))).actors == Tuck(a.sn, Become(s, id, a.(i := 0))).actors;
  }

  lemma OpenSafe(s: State, id: nat)
    requires Safe(true, s) && id in s.actors && s.actors[id].pc.SnapOpen? && s.actors[id].u in s.disk
    requires forall j :: j in s.actors && j != id && Holds(s.actors[id].sn, s.actors[j]) ==> s.actors[j].u in s.disk
    ensures var a := s.actors[id]; Safe(true, Tuck(a.sn, Become(s, id, a.(pc := SnapCopy, i := 0))))
  {
    var a := s.actors[id];
    BackSafe(s, id, a.(i := 0));
    TuckSafe(a.sn, Become(s, id, a.(i := 0)));
    TuckOpened(s, id);
  }

  lemma OpenHollow(s: State, id: nat)
    requires id in s.actors && AllEmpty(s, id) && s.actors[id].u in s.disk && s.disk[s.actors[id].u] == []
    requires Snap(s.actors[id].sn) in s.fs && s.fs[Snap(s.actors[id].sn)] == []
    ensures var a := s.actors[id]; Hollow(a.sn, Become(s, id, a.(pc := SnapCopy, i := 0)))
  {
  }

  /** One more save of an empty disk under a name where all is empty is harmless. */
  lemma OpenHarmless(s: State, id: nat, c: Pick)
    requires Safe(true, s) && id in s.actors && s.actors[id].pc.SnapOpen? && s.actors[id].u in s.disk
    requires AllEmpty(s, id) && !MayOpen(s, id)
    ensures Harmless(s.actors[id].sn, GoStep(s, id, c))
  {
    FileEmpty(s, id);
    SourceIs(s, id);
    OpenEmpty(s, id, c);
    OpenSafe(s, id);
    OpenHollow(s, id);
  }

  /** Whatever is recorded, under this name or another, is exact. */
  lemma UnharmedExact(sn: string, s: State, n: string)
    requires Unharmed(sn, s) && n in s.snaps && s.snaps[n].logical.Some?
    ensures Snap(n) in s.fs && s.fs[Snap(n)] == s.snaps[n].logical.value
  {
    if Safe(true, s) {
      Seen(true, s);
    } else {
      Seen(true, Tuck(sn, s));
    }
  }
}
