/**
Where the guarantees end. The two conditions on callers are exact: a create that is not careful
can cost a VM its disk, and a save that opens a snapshot it must not open can spoil a snapshot,
unless all that there is under that name is empty.
*/
module Limits {
  import opened Options
  import opened OpTable
  import opened World
  import opened Invariant
  import opened Safety
  import opened EveryRun
  import opened Shapes
  import opened Progress
  import opened Erasure
  import opened CarefulRuns
  import opened Guarantees
  import opened Futures
  import opened HollowSaves
  import opened StaleDeletes
  import LaunchSteps

  // ---------------------------------------------------------------- creates

  ghost predicate AllResolve(s: State) {
    forall u :: u in s.disk ==> Resolves(s, u, s.disk[u])
  }

  /** However a careful run goes on, no disk is lost. */
  ghost predicate DisksEndure(s: State) {
    forall ls :: Executable(s, ls) && CarefulRun(false, s, ls) ==> AllResolve(Run(s, ls))
  }

  lemma ReachableEndures(s: State)
    requires Reachable(false, s)
    ensures DisksEndure(s)
  {
    forall ls | Executable(s, ls) && CarefulRun(false, s, ls) ensures AllResolve(Run(s, ls)) {
      ReachableRun(false, s, ls);
      forall u | u in Run(s, ls).disk ensures Resolves(Run(s, ls), u, Run(s, ls).disk[u]) {
        NoDiskLost(Run(s, ls), u);
      }
    }
  }

  lemma NextReachable(tidy: bool, s: State, l: Label)
    requires Reachable(tidy, s) && Enabled(s, l) && Careful(s, l) && (tidy ==> Tidy(s, l))
    ensures Reachable(tidy, Apply(s, l))
  {
    OneStep(s, l);
    assert [l][1..] == [] && CarefulRun(tidy, Apply(s, l), []);
    ReachableRun(tidy, s, [l]);
  }

  lemma LostDoesNotEndure(s: State, t: State, u: Uuid)
    requires Leads(s, t) && Lost(t, u)
    ensures !DisksEndure(s)
  {
    var ls :| Executable(s, ls) && CarefulRun(true, s, ls) && Run(s, ls) == t;
    TidyIsCareful(s, ls);
    assert !AllResolve(Run(s, ls));
  }

  lemma CreateExposes(s: State, u: Uuid, name: string, image: Option<Content>, id: nat)
    requires Enabled(s, Create(u, name, image)) && id in s.actors && Threat(s.cfg, s.actors[id])
    requires s.actors[id].row.name == name
    ensures var s' := CreateStep(s, u, name, image); Exposed(s', id, u) && (u in s'.disk ==> Hot(name) in s'.fs)
  {
  }

  lemma CarelessLoses(s: State, u: Uuid, name: string, image: Option<Content>, id: nat)
    requires Core(s) && Shaped(s) && Enabled(s, Create(u, name, image))
    requires id in s.actors && Threat(s.cfg, s.actors[id]) && s.actors[id].row.name == name
    ensures !DisksEndure(CreateStep(s, u, name, image))
  {
    var s' := CreateStep(s, u, name, image);
    CreateSound(s, u, name, image);
    CreateShape(s, u, name, image);
    ShapeStepKeeps(s, s');
    CreateExposes(s, u, name, image, id);
    var t := Destroyed(s', id, u);
    LostDoesNotEndure(s', t, u);
  }

  /**
  A create leaves every disk safe, however the run goes on, exactly when no delete in flight
  carries its name and can still remove a file of that name.
  */
  lemma CreateExactly(s: State, u: Uuid, name: string, image: Option<Content>)
    requires Reachable(false, s) && Enabled(s, Create(u, name, image))
    ensures DisksEndure(CreateStep(s, u, name, image)) <==> Careful(s, Create(u, name, image))
  {
    if Careful(s, Create(u, name, image)) {
      NextReachable(false, s, Create(u, name, image));
      ReachableEndures(CreateStep(s, u, name, image));
    } else {
      var id :| id in s.actors && Threat(s.cfg, s.actors[id]) && s.actors[id].row.name == name;
      ReachableSafe(false, s);
      CarelessLoses(s, u, name, image, id);
    }
  }

  // ---------------------------------------------------------------- saves

  ghost predicate AllExact(s: State) {
    forall sn :: sn in s.snaps && s.snaps[sn].logical.Some? ==>
      Snap(sn) in s.fs && s.fs[Snap(sn)] == s.snaps[sn].logical.value
  }

  /** However a careful and tidy run goes on, every snapshot holds what was recorded with it. */
  ghost predicate SnapshotsEndure(s: State) {
    forall ls :: Executable(s, ls) && CarefulRun(true, s, ls) ==> AllExact(Run(s, ls))
  }

  lemma ReachableExact(s: State)
    requires Reachable(true, s)
    ensures SnapshotsEndure(s)
  {
    forall ls | Executable(s, ls) && CarefulRun(true, s, ls) ensures AllExact(Run(s, ls)) {
      ReachableRun(true, s, ls);
      forall sn | sn in Run(s, ls).snaps && Run(s, ls).snaps[sn].logical.Some?
        ensures Snap(sn) in Run(s, ls).fs && Run(s, ls).fs[Snap(sn)] == Run(s, ls).snaps[sn].logical.value
      {
        SnapshotExact(Run(s, ls), sn);
      }
    }
  }

  /** A recorded snapshot does not hold what was recorded with it. */
  predicate Spoilt(s: State, sn: string) {
    && sn in s.snaps && s.snaps[sn].logical.Some?
    && (Snap(sn) in s.fs ==> s.fs[Snap(sn)] != s.snaps[sn].logical.value)
  }

  lemma SpoiltDoesNotEndure(s: State, t: State, sn: string)
    requires Leads(s, t) && Spoilt(t, sn)
    ensures !SnapshotsEndure(s)
  {
    var ls :| Executable(s, ls) && CarefulRun(true, s, ls) && Run(s, ls) == t;
    assert !AllExact(Run(s, ls));
  }

  /** The save has just opened its snapshot, or has copied its first block. */
  predicate Opened(s: State, t: State, id: nat, n: nat) {
    && id in s.actors && Snap(s.actors[id].sn) in t.fs && |t.fs[Snap(s.actors[id].sn)]| == n
    && t.snaps == s.snaps && t.disk == s.disk
    && (forall i :: i in s.actors && i != id ==> i in t.actors && t.actors[i] == s.actors[i])
    && (forall p :: p in s.fs && !p.Snap? ==> p in t.fs && t.fs[p] == s.fs[p])
  }

  lemma OpenStep(s: State, id: nat, c: Pick)
    requires id in s.actors && s.actors[id].pc.SnapOpen?
    ensures var t := GoStep(s, id, c);
      Opened(s, t, id, 0) && id in t.actors && t.actors[id] == s.actors[id].(pc := SnapCopy, i := 0)
  {
    InsideStep(s, id, c);
  }

  lemma CopyEffect(s: State, a: Actor)
    requires a.pc.SnapCopy?
    ensures GoEnabled(s, a, LAST)
    ensures EffectOf(s, a, LAST) ==
      if a.i < |At(s.fs, a.src)|
      then Touch(a.(i := a.i + 1), Write(Snap(a.sn), At(s.fs, Snap(a.sn)) + [At(s.fs, a.src)[a.i]]))
      else Goto(a.(pc := SnapCommit))
  {
  }

  /** A save that has its snapshot open goes on copying. */
  lemma CopyBlock(t: State, j: nat) returns (x: State)
    requires j in t.actors && t.actors[j].pc.SnapCopy? && !t.actors[j].src.Snap?
    requires t.actors[j].i < |At(t.fs, t.actors[j].src)|
    ensures var a := t.actors[j];
      && Leads(t, x) && x == Become(t, j, a.(i := a.i + 1)).(fs := x.fs)
      && (forall p :: p in t.fs && !p.Snap? ==> p in x.fs && x.fs[p] == t.fs[p]) && At(x.fs, a.src) == At(t.fs, a.src)
      && Snap(a.sn) in x.fs && x.fs[Snap(a.sn)] == At(t.fs, Snap(a.sn)) + [At(t.fs, a.src)[a.i]]
  {
    var a := t.actors[j];
    CopyEffect(t, a);
    var e := Touch(a.(i := a.i + 1), Write(Snap(a.sn), At(t.fs, Snap(a.sn)) + [At(t.fs, a.src)[a.i]]));
    LeadsEffect(t, j, LAST, e);
    x := Perform(t, j, e);
  }

  /** One block of a nonempty source. */
  lemma FirstBlock(s: State, t: State, id: nat) returns (x: State)
    requires Opened(s, t, id, 0) && id in t.actors && t.actors[id] == s.actors[id].(pc := SnapCopy, i := 0)
    requires !s.actors[id].src.Snap? && s.actors[id].src in s.fs && s.fs[s.actors[id].src] != []
    ensures Leads(t, x) && Opened(s, x, id, 1)
  {
    x := CopyBlock(t, id);
  }

  lemma CopyEnds(t: State, j: nat) returns (x: State)
    requires j in t.actors && t.actors[j].pc.SnapCopy? && t.actors[j].i >= |At(t.fs, t.actors[j].src)|
    ensures Leads(t, x) && x == Become(t, j, t.actors[j].(pc := SnapCommit))
  {
    CopyEffect(t, t.actors[j]);
    GotoBecomes(t, j, t.actors[j].(pc := SnapCommit));
    LeadsEffect(t, j, LAST, Goto(t.actors[j].(pc := SnapCommit)));
    x := Perform(t, j, Goto(t.actors[j].(pc := SnapCommit)));
  }

  /** The save has copied all of its source, to a file of this length. */
  predicate CopiedAll(t: State, x: State, j: nat, n: nat) {
    && j in t.actors && j in x.actors && x.actors[j].pc.SnapCommit? && x.actors[j].u == t.actors[j].u
    && x.actors[j].sn == t.actors[j].sn && x.snaps == t.snaps && x.disk == t.disk
    && |At(x.fs, Snap(t.actors[j].sn))| == n
  }

  /** One block more is in the snapshot's file, and one less is left. */
  ghost predicate OneMore(t: State, x: State, j: nat) {
    && j in t.actors && j in x.actors && x.snaps == t.snaps && x.disk == t.disk
    && var a, b := t.actors[j], x.actors[j];
       && b == a.(i := a.i + 1)
       && |At(x.fs, Snap(a.sn))| == |At(t.fs, Snap(a.sn))| + 1 && Todo(At(x.fs, a.src), b.i) + 1 == Todo(At(t.fs, a.src), a.i)
  }

  lemma CopyMore(t: State, j: nat) returns (x: State)
    requires j in t.actors && t.actors[j].pc.SnapCopy? && !t.actors[j].src.Snap?
    requires t.actors[j].i < |At(t.fs, t.actors[j].src)|
    ensures Leads(t, x) && OneMore(t, x, j)
  {
    x := CopyBlock(t, j);
  }

  lemma CopyLast(t: State, j: nat) returns (x: State)
    requires j in t.actors && t.actors[j].pc.SnapCopy? && t.actors[j].i >= |At(t.fs, t.actors[j].src)|
    ensures Leads(t, x) && CopiedAll(t, x, j, |At(t.fs, Snap(t.actors[j].sn))|)
  {
    x := CopyEnds(t, j);
  }

  lemma CopyJoined(t: State, y: State, x: State, j: nat, n: nat)
    requires OneMore(t, y, j) && CopiedAll(y, x, j, n)
    ensures CopiedAll(t, x, j, n)
  {
  }

  /** How long the snapshot's file will be. */
  function Length(t: State, a: Actor): nat {
    |At(t.fs, Snap(a.sn))| + Todo(At(t.fs, a.src), a.i)
  }

  lemma {:induction false} CopyRest(t: State, j: nat) returns (x: State)
    requires j in t.actors && t.actors[j].pc.SnapCopy? && !t.actors[j].src.Snap?
    ensures Leads(t, x) && CopiedAll(t, x, j, Length(t, t.actors[j]))
    decreases Todo(At(t.fs, t.actors[j].src), t.actors[j].i)
  {
    if t.actors[j].i < |At(t.fs, t.actors[j].src)| {
      var y := CopyMore(t, j);
      x := CopyRest(y, j);
      LeadsOn(t, y, x);
      CopyJoined(t, y, x, j, Length(t, t.actors[j]));
    } else {
      x := CopyLast(t, j);
    }
  }

  lemma Commits(t: State, j: nat) returns (x: State)
    requires j in t.actors && t.actors[j].pc.SnapCommit? && t.actors[j].sn !in t.snaps && t.actors[j].u in t.disk
    ensures Leads(t, x) && x.fs == t.fs && t.actors[j].sn in x.snaps
    ensures x.snaps[t.actors[j].sn].logical == Some(t.disk[t.actors[j].u])
  {
    LeadsNowhere(t);
    LeadsGo(t, t, j, LAST);
    LateStep(t, j, LAST);
    x := SnapCommitStep(t, j, t.actors[j]);
  }

  /** The other save goes on after `id` has opened its snapshot, and records what is not there. */
  lemma WriterSpoils(s: State, t: State, id: nat, j: nat, n: nat, done: nat) returns (x: State)
    requires Opened(s, t, id, n) && j in s.actors && j != id && Writing(s.actors[j])
    requires s.actors[j].sn == s.actors[id].sn
    requires s.actors[j].sn !in s.snaps && s.actors[j].u in s.disk && !s.actors[j].src.Snap?
    requires s.actors[j].src in s.fs && s.fs[s.actors[j].src] == s.disk[s.actors[j].u]
    requires done == if s.actors[j].pc.SnapCopy? then s.actors[j].i else |s.disk[s.actors[j].u]|
    requires done <= |s.disk[s.actors[j].u]| && n != done
    ensures Leads(t, x) && Spoilt(x, s.actors[j].sn)
  {
    var y := t;
    if s.actors[j].pc.SnapCopy? {
      y := CopyRest(t, j);
    } else {
      LeadsNowhere(t);
    }
    x := Commits(y, j);
    LeadsOn(t, y, x);
  }

  /** What a save that has its snapshot open has copied. */
  lemma WriterKnows(s: State, a: Actor)
    requires PcOk(s, a) && Writing(a) && a.u in s.disk
    ensures !a.src.Snap? && a.src in s.fs && s.fs[a.src] == s.disk[a.u]
    ensures a.pc.SnapCopy? ==> a.i <= |s.disk[a.u]|
  {
  }

  lemma WriterAt(s: State, j: nat)
    requires Safe(true, s) && j in s.actors && Writing(s.actors[j]) && s.actors[j].u in s.disk
    ensures var a := s.actors[j];
      !a.src.Snap? && a.src in s.fs && s.fs[a.src] == s.disk[a.u] && (a.pc.SnapCopy? ==> a.i <= |s.disk[a.u]|)
  {
    assert ShapeOk(s.cfg, s.actors[j]);
    SafeDisk(true, s, s.actors[j].u);
    PlainPc(true, s, j);
    WriterKnows(Erase(true, s), s.actors[j]);
  }

  /** A snapshot of this name, if there is one or one is being written, comes with its VM's content. */
  predicate Tracked(s: State, sn: string) {
    && (sn in s.snaps ==> s.snaps[sn].logical.Some?)
    && (forall j :: j in s.actors && Writing(s.actors[j]) && s.actors[j].sn == sn ==> s.actors[j].u in s.disk)
  }

  /** A save of an empty disk records the first block of the other save as its own. */
  lemma EmptySpoils(s: State, t: State, id: nat, j: nat) returns (x: State)
    requires Opened(s, t, id, 0) && id in t.actors && t.actors[id] == s.actors[id].(pc := SnapCopy, i := 0)
    requires s.actors[id].sn !in s.snaps && s.actors[id].u in s.disk && s.disk[s.actors[id].u] == []
    requires !s.actors[id].src.Snap? && s.actors[id].src in s.fs && s.fs[s.actors[id].src] == []
    requires j in s.actors && j != id && s.actors[j].pc.SnapCopy? && s.actors[j].sn == s.actors[id].sn
    requires !s.actors[j].src.Snap? && s.actors[j].src in s.fs && s.actors[j].i < |s.fs[s.actors[j].src]|
    ensures Leads(t, x) && Spoilt(x, s.actors[id].sn)
  {
    var y := CopyBlock(t, j);
    var z := CopyEnds(y, id);
    LeadsOn(t, y, z);
    x := Commits(z, id);
    LeadsOn(t, z, x);
  }

  lemma WriterOverrun(s: State, id: nat, c: Pick, j: nat)
    requires Safe(true, s) && id in s.actors && s.actors[id].pc.SnapOpen? && s.actors[id].src in s.fs
    requires s.actors[id].sn !in s.snaps
    requires j in s.actors && j != id && Holds(s.actors[id].sn, s.actors[j]) && s.actors[j].u in s.disk
    requires s.actors[j].pc.SnapCopy? ==> s.actors[j].i != 0
    requires s.actors[j].pc.SnapCommit? ==> s.disk[s.actors[j].u] != []
    ensures !SnapshotsEndure(GoStep(s, id, c))
  {
    var a, t := s.actors[j], GoStep(s, id, c);
    WriterAt(s, j);
    OpenStep(s, id, c);
    var x := WriterSpoils(s, t, id, j, 0, if a.pc.SnapCopy? then a.i else |s.disk[a.u]|);
    SpoiltDoesNotEndure(t, x, a.sn);
  }

  lemma WriterOutrun(s: State, id: nat, c: Pick, j: nat)
    requires Safe(true, s) && id in s.actors && s.actors[id].pc.SnapOpen? && s.actors[id].src in s.fs
    requires s.fs[s.actors[id].src] != [] && s.actors[id].sn !in s.snaps
    requires j in s.actors && j != id && Holds(s.actors[id].sn, s.actors[j]) && s.actors[j].u in s.disk
    requires if s.actors[j].pc.SnapCopy? then s.actors[j].i == 0 else s.disk[s.actors[j].u] == []
    ensures !SnapshotsEndure(GoStep(s, id, c))
  {
    var a, t := s.actors[j], GoStep(s, id, c);
    WriterAt(s, j);
    assert ShapeOk(s.cfg, s.actors[id]);
    OpenStep(s, id, c);
    var y := FirstBlock(s, t, id);
    var x := WriterSpoils(s, y, id, j, 1, 0);
    LeadsOn(t, y, x);
    SpoiltDoesNotEndure(t, x, a.sn);
  }

  lemma EmptyOverrun(s: State, id: nat, c: Pick, j: nat)
    requires Safe(true, s) && id in s.actors && s.actors[id].pc.SnapOpen? && s.actors[id].src in s.fs
    requires s.fs[s.actors[id].src] == [] && s.actors[id].u in s.disk && s.actors[id].sn !in s.snaps
    requires j in s.actors && j != id && Holds(s.actors[id].sn, s.actors[j]) && s.actors[j].u in s.disk
    requires s.actors[j].pc.SnapCopy? && s.actors[j].i == 0 && s.disk[s.actors[j].u] != []
    ensures !SnapshotsEndure(GoStep(s, id, c))
  {
    var t := GoStep(s, id, c);
    WriterAt(s, j);
    SourceIs(s, id);
    OpenStep(s, id, c);
    var x := EmptySpoils(s, t, id, j);
    SpoiltDoesNotEndure(t, x, s.actors[id].sn);
  }

  lemma OpenOverWriter(s: State, id: nat, c: Pick, j: nat)
    requires Safe(true, s) && id in s.actors && s.actors[id].pc.SnapOpen? && s.actors[id].src in s.fs
    requires s.fs[s.actors[id].src] == [] ==> s.actors[id].u in s.disk
    requires s.actors[id].sn !in s.snaps
    requires j in s.actors && j != id && Holds(s.actors[id].sn, s.actors[j]) && s.actors[j].u in s.disk
    requires s.fs[s.actors[id].src] != [] || s.disk[s.actors[j].u] != []
    ensures !SnapshotsEndure(GoStep(s, id, c))
  {
    if if s.actors[j].pc.SnapCopy? then s.actors[j].i != 0 else s.disk[s.actors[j].u] != [] {
      WriterOverrun(s, id, c, j);
    } else if s.fs[s.actors[id].src] != [] {
      WriterOutrun(s, id, c, j);
    } else {
      EmptyOverrun(s, id, c, j);
    }
  }

  lemma OpenOverRecorded(s: State, id: nat, c: Pick)
    requires Shaped(s) && id in s.actors && s.actors[id].pc.SnapOpen? && s.actors[id].src in s.fs
    requires s.actors[id].sn in s.snaps && s.snaps[s.actors[id].sn].logical.Some?
    requires s.fs[s.actors[id].src] != [] || s.snaps[s.actors[id].sn].logical.value != []
    ensures !SnapshotsEndure(GoStep(s, id, c))
  {
    var t, sn := GoStep(s, id, c), s.actors[id].sn;
    assert ShapeOk(s.cfg, s.actors[id]);
    OpenStep(s, id, c);
    if s.snaps[sn].logical.value == [] {
      var x := FirstBlock(s, t, id);
      SpoiltDoesNotEndure(t, x, sn);
    } else {
      LeadsNowhere(t);
      SpoiltDoesNotEndure(t, t, sn);
    }
  }

  lemma OpenSpoils(s: State, id: nat, c: Pick)
    requires Safe(true, s) && id in s.actors && s.actors[id].pc.SnapOpen? && s.actors[id].src in s.fs
    requires s.fs[s.actors[id].src] == [] ==> s.actors[id].u in s.disk
    requires Tracked(s, s.actors[id].sn) && !MayOpen(s, id) && !AllEmpty(s, id)
    ensures !SnapshotsEndure(GoStep(s, id, c))
  {
    var a := s.actors[id];
    if a.sn in s.snaps {
      assert forall j :: j in s.actors ==> !Holds(a.sn, s.actors[j]);
      OpenOverRecorded(s, id, c);
    } else if s.fs[a.src] != [] {
      var j :| j in s.actors && j != id && Writing(s.actors[j]) && s.actors[j].sn == a.sn;
      OpenOverWriter(s, id, c, j);
    } else {
      var j :| j in s.actors && j != id && Holds(a.sn, s.actors[j]) && s.disk[s.actors[j].u] != [];
      OpenOverWriter(s, id, c, j);
    }
  }

  lemma OpenKeeps(s: State, id: nat, c: Pick)
    requires Reachable(true, s) && Enabled(s, Go(id, c)) && Guarded(s, id)
    ensures SnapshotsEndure(GoStep(s, id, c))
  {
    NextReachable(true, s, Go(id, c));
    ReachableExact(GoStep(s, id, c));
  }

  lemma UnharmedEndures(sn: string, s: State)
    requires Unharmed(sn, s)
    ensures SnapshotsEndure(s)
  {
    forall ls | Executable(s, ls) && CarefulRun(true, s, ls) ensures AllExact(Run(s, ls)) {
      HarmlessRun(sn, s, ls);
      forall n | n in Run(s, ls).snaps && Run(s, ls).snaps[n].logical.Some?
        ensures Snap(n) in Run(s, ls).fs && Run(s, ls).fs[Snap(n)] == Run(s, ls).snaps[n].logical.value
      {
        UnharmedExact(sn, Run(s, ls), n);
      }
    }
  }

  lemma OpenEmptyKeeps(s: State, id: nat, c: Pick)
    requires Safe(true, s) && id in s.actors && s.actors[id].pc.SnapOpen? && s.actors[id].u in s.disk
    requires !MayOpen(s, id) && AllEmpty(s, id)
    ensures SnapshotsEndure(GoStep(s, id, c))
  {
    OpenHarmless(s, id, c);
    UnharmedEndures(s.actors[id].sn, GoStep(s, id, c));
  }

  lemma OpenReads(s: State, id: nat, c: Pick)
    requires Enabled(s, Go(id, c)) && s.actors[id].pc.SnapOpen?
    ensures s.actors[id].src in s.fs
  {
  }

  lemma OpenAgainExactly(s: State, id: nat, c: Pick)
    requires Reachable(true, s) && Enabled(s, Go(id, c)) && s.actors[id].pc.SnapOpen?
    requires Tracked(s, s.actors[id].sn) && (At(s.fs, s.actors[id].src) == [] ==> s.actors[id].u in s.disk)
    requires !MayOpen(s, id)
    ensures SnapshotsEndure(GoStep(s, id, c)) <==> AllEmpty(s, id)
  {
    OpenReads(s, id, c);
    ReachableSafe(true, s);
    if AllEmpty(s, id) {
      OpenEmptyKeeps(s, id, c);
    } else {
      OpenSpoils(s, id, c);
    }
  }

  /**
  Opening a snapshot leaves every snapshot exact, however the run goes on, exactly when the
  snapshot is not recorded and no other save has it open, or all of them are empty.
  */
  lemma OpenExactly(s: State, id: nat, c: Pick)
    requires Reachable(true, s) && Enabled(s, Go(id, c)) && s.actors[id].pc.SnapOpen?
    requires Tracked(s, s.actors[id].sn) && (At(s.fs, s.actors[id].src) == [] ==> s.actors[id].u in s.disk)
    ensures SnapshotsEndure(GoStep(s, id, c)) <==> MayOpen(s, id) || AllEmpty(s, id)
  {
    if MayOpen(s, id) {
      OpenKeeps(s, id, c);
    } else {
      OpenAgainExactly(s, id, c);
    }
  }
}
