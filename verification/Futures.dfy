/**
Runs that go on from a state without a create and without opening a snapshot that must not be
opened. They are what an interleaving can always add, and they are put together from single steps.
*/
module Futures {
  import opened Options
  import opened OpTable
  import opened World
  import opened Invariant
  import opened Safety
  import opened EveryRun
  import opened Shapes
  import opened Progress

  /** Some careful and tidy run goes from one state to the other. */
  ghost predicate Leads(s: State, t: State) {
    exists ls :: Executable(s, ls) && CarefulRun(true, s, ls) && Run(s, ls) == t
  }

  lemma LeadsNowhere(s: State)
    ensures Leads(s, s)
  {
    assert Executable(s, []) && CarefulRun(true, s, []) && Run(s, []) == s;
  }

  lemma LeadsOn(s: State, t: State, x: State)
    requires Leads(s, t) && Leads(t, x)
    ensures Leads(s, x)
  {
    var ls :| Executable(s, ls) && CarefulRun(true, s, ls) && Run(s, ls) == t;
    var ms :| Executable(t, ms) && CarefulRun(true, t, ms) && Run(t, ms) == x;
    RunAppend(s, ls, ms);
  }

  lemma LeadsStep(s: State, l: Label)
    requires Enabled(s, l) && !l.Create? && Tidy(s, l)
    ensures Leads(s, Apply(s, l))
  {
    var t := Apply(s, l);
    OneStep(s, l);
    assert [l][1..] == [] && CarefulRun(true, t, []);
    assert CarefulRun(true, s, [l]);
  }

  /** One more step of an operation that opens no snapshot. */
  lemma LeadsGo(s: State, t: State, id: nat, c: Pick)
    requires Leads(s, t) && id in t.actors && GoEnabled(t, t.actors[id], c) && !t.actors[id].pc.SnapOpen?
    ensures Leads(s, GoStep(t, id, c))
  {
    LeadsStep(t, Go(id, c));
    LeadsOn(s, t, GoStep(t, id, c));
  }

  lemma LeadsInside(s: State, t: State, id: nat, c: Pick)
    requires Leads(s, t) && id in t.actors && GoEnabled(t, t.actors[id], c)
    requires Inside(t.actors[id].pc) && !t.actors[id].pc.SnapOpen?
    ensures Leads(s, Perform(t, id, EffectOf(t, t.actors[id], c)))
  {
    LeadsGo(s, t, id, c);
    InsideStep(t, id, c);
  }

  /** The same for a known effect. */
  lemma LeadsEffect(t: State, id: nat, c: Pick, e: Effect)
    requires id in t.actors && GoEnabled(t, t.actors[id], c) && Inside(t.actors[id].pc) && !t.actors[id].pc.SnapOpen?
    requires EffectOf(t, t.actors[id], c) == e
    ensures Leads(t, Perform(t, id, e))
  {
    LeadsNowhere(t);
    LeadsInside(t, t, id, c);
  }

  lemma LeadsSound(s: State, t: State)
    requires Leads(s, t) && Core(s) && Shaped(s)
    ensures Core(t) && Shaped(t)
  {
    var ls :| Executable(s, ls) && CarefulRun(true, s, ls) && Run(s, ls) == t;
    RunSound(s, ls);
    RunShapes(s, ls);
  }

  // ---------------------------------------------------------------- a holder gives up

  predicate Temporary(p: Path) {
    p.HotTmp? || p.ColdTmp?
  }

  /** Temporary files apart, the files are the same. */
  predicate KeepsDisks(fs: Files, fs': Files) {
    && (forall p :: p in fs && !Temporary(p) ==> p in fs' && fs'[p] == fs[p])
    && (forall p :: p in fs' && !Temporary(p) ==> p in fs)
  }

  /** Nothing happens but to one operation and its VM's entries in the table. */
  ghost predicate Aside(s: State, t: State, h: nat, v: Uuid) {
    && t.cfg == s.cfg && t.rows == s.rows && t.disk == s.disk && t.snaps == s.snaps
    && KeepsDisks(s.fs, t.fs) && t.nextId == s.nextId
    && (forall i :: i in s.actors && i != h ==> i in t.actors && t.actors[i] == s.actors[i])
    && (forall i :: i in t.actors && i != h ==> i in s.actors)
    && (forall x :: x != v ==> (x in t.t.owner <==> x in s.t.owner) && (x in t.t.running <==> x in s.t.running))
    && s.t.closed <= t.t.closed
  }

  lemma AsideOn(s: State, t: State, x: State, h: nat, v: Uuid)
    requires Aside(s, t, h, v) && Aside(t, x, h, v)
    ensures Aside(s, x, h, v)
  {
  }

  /** The holder is still there, and the table is the same but for its VM's process. */
  predicate StillHeld(s: State, t: State, h: nat) {
    && h in s.actors && h in t.actors && t.actors[h].held && t.actors[h].u == s.actors[h].u && t.actors[h].kind == s.actors[h].kind
    && t.t.owner == s.t.owner && t.t.archives == s.t.archives
  }

  lemma BecomeAside(s: State, h: nat, a': Actor)
    requires h in s.actors
    ensures Aside(s, Become(s, h, a'), h, s.actors[h].u)
  {
  }

  lemma FailAside(s: State, h: nat)
    requires h in s.actors && s.actors[h].held && CanFail(s.actors[h].pc)
    ensures Leads(s, Become(s, h, FailTo(s.actors[h])))
    ensures Aside(s, Become(s, h, FailTo(s.actors[h])), h, s.actors[h].u)
    ensures StillHeld(s, Become(s, h, FailTo(s.actors[h])), h)
  {
    LeadsStep(s, Fail(h));
    BecomeAside(s, h, FailTo(s.actors[h]));
    FailSameJob(s.actors[h]);
  }

  lemma FailSameJob(a: Actor)
    ensures FailTo(a).kind == a.kind && FailTo(a).u == a.u && FailTo(a).held == a.held
  {
  }

  const LAST := Pick(false, 0, [])

  predicate Cleaning(pc: Pc) {
    pc.HydrateDropStale? || pc.HydrateDropCold? || pc.HydrateCleanup? || pc.ArchiveCleanup?
  }

  /** The step removes at most a temporary file. */
  predicate Light(a: Actor, e: Effect) {
    && e.a.held == a.held && e.a.u == a.u && e.a.kind == a.kind && e.archived.None? && e.disk.KeepDisk?
    && (e.file.NoFile? || (e.file.Remove? && Temporary(e.file.p)))
  }

  lemma CleaningLight(s: State, a: Actor)
    requires Cleaning(a.pc)
    ensures Light(a, EffectOf(s, a, LAST)) && Rank(EffectOf(s, a, LAST).a.pc) < Rank(a.pc)
  {
    match a.pc
    case HydrateDropStale =>
    case HydrateDropCold =>
    case HydrateCleanup =>
    case ArchiveCleanup =>
  }

  lemma LightAside(s: State, h: nat, e: Effect)
    requires h in s.actors && s.actors[h].held && Light(s.actors[h], e)
    ensures Aside(s, Perform(s, h, e), h, s.actors[h].u) && StillHeld(s, Perform(s, h, e), h)
  {
  }

  lemma CleanupAside(s: State, h: nat)
    requires h in s.actors && s.actors[h].held && Cleaning(s.actors[h].pc)
    ensures var t := GoStep(s, h, LAST);
      Leads(s, t) && Aside(s, t, h, s.actors[h].u) && StillHeld(s, t, h) && Rank(t.actors[h].pc) < Rank(s.actors[h].pc)
  {
    CleaningLight(s, s.actors[h]);
    LightAside(s, h, EffectOf(s, s.actors[h], LAST));
    LeadsNowhere(s);
    LeadsGo(s, s, h, LAST);
    InsideStep(s, h, LAST);
  }

  lemma RegisterAside(s: State, h: nat)
    requires h in s.actors && s.actors[h].held && s.actors[h].pc.Register?
    ensures var t := RegisterStep(s, h, s.actors[h]); Leads(s, t) && Aside(s, t, h, s.actors[h].u) && StillHeld(s, t, h)
  {
    LeadsStep(s, Go(h, LAST));
    LateStep(s, h, LAST);
  }

  /** The holder has come nearer to its last step without touching a disk. */
  ghost predicate Yielded(s: State, t: State, h: nat) {
    && Leads(s, t) && h in s.actors && Aside(s, t, h, s.actors[h].u) && StillHeld(s, t, h)
    && LocalsOk(t.actors[h]) && Rank(t.actors[h].pc) < Rank(s.actors[h].pc)
  }

  lemma CleanupYields(s: State, h: nat)
    requires h in s.actors && s.actors[h].held && LocalsOk(s.actors[h]) && Cleaning(s.actors[h].pc)
    ensures Yielded(s, GoStep(s, h, LAST), h)
  {
    CleanupAside(s, h);
    InsideOnward(s, s.actors[h], LAST);
    InsideStep(s, h, LAST);
  }

  lemma RegisterYields(s: State, h: nat)
    requires h in s.actors && s.actors[h].held && LocalsOk(s.actors[h]) && s.actors[h].pc.Register?
    ensures Yielded(s, RegisterStep(s, h, s.actors[h]), h)
  {
    RegisterAside(s, h);
  }

  lemma FailYields(s: State, h: nat)
    requires h in s.actors && s.actors[h].held && LocalsOk(s.actors[h]) && CanFail(s.actors[h].pc)
    ensures Yielded(s, Become(s, h, FailTo(s.actors[h])), h)
  {
    FailAside(s, h);
    FailOnward(s.actors[h]);
    FailRank(s.actors[h]);
  }

  lemma Yields(s: State, h: nat) returns (t: State)
    requires h in s.actors && s.actors[h].held && LocalsOk(s.actors[h]) && !s.actors[h].pc.End?
    ensures Yielded(s, t, h)
  {
    var a := s.actors[h];
    if Cleaning(a.pc) {
      CleanupYields(s, h);
      t := GoStep(s, h, LAST);
    } else if a.pc.Register? {
      RegisterYields(s, h);
      t := RegisterStep(s, h, a);
    } else {
      FailYields(s, h);
      t := Become(s, h, FailTo(a));
    }
  }

  /** The holder comes to its last step without touching a disk. */
  lemma {:induction false} GivesUp(s: State, h: nat) returns (t: State)
    requires h in s.actors && s.actors[h].held && LocalsOk(s.actors[h])
    ensures Leads(s, t) && Aside(s, t, h, s.actors[h].u) && StillHeld(s, t, h) && t.actors[h].pc.End?
    decreases Rank(s.actors[h].pc)
  {
    var a := s.actors[h];
    if a.pc.End? {
      t := s;
      LeadsNowhere(s);
    } else {
      var x := Yields(s, h);
      t := GivesUp(x, h);
      LeadsOn(s, x, t);
      AsideOn(s, x, t, h, a.u);
    }
  }

  lemma EndTable(s: State, h: nat, a: Actor)
    requires h in s.actors && a == s.actors[h]
    requires a.u in s.t.archives ==> a.kind == ArchiveStoppedVM && s.t.archives[a.u].id == h
    ensures var t := EndStep(s, h, a);
      Aside(s, t, h, a.u) && a.u !in t.t.owner && a.u !in t.t.archives && (a.kind == ArchiveStoppedVM ==> h in t.t.closed)
  {
  }

  lemma EndAside(s: State, h: nat)
    requires Core(s) && h in s.actors && s.actors[h].pc.End?
    ensures var t, v := EndStep(s, h, s.actors[h]), s.actors[h].u;
      Leads(s, t) && Aside(s, t, h, v) && v !in t.t.owner && v !in t.t.archives && (IsArchive(s.actors[h]) ==> h in t.t.closed)
  {
    CoreLocals(s, h);
    LeadsNowhere(s);
    LeadsGo(s, s, h, LAST);
    EarlyStep(s, h, LAST);
    EndTable(s, h, s.actors[h]);
  }

  /** Whoever holds a VM's token can give it back without touching a disk. */
  lemma Releases(s: State, v: Uuid) returns (t: State)
    requires Core(s) && Shaped(s) && v in s.t.owner
    ensures Leads(s, t) && Aside(s, t, s.t.owner[v], v) && v !in t.t.owner && v !in t.t.archives
    ensures s.t.owner[v] in s.actors && (IsArchive(s.actors[s.t.owner[v]]) ==> s.t.owner[v] in t.t.closed)
  {
    var h := s.t.owner[v];
    CoreLocals(s, h);
    var x := GivesUp(s, h);
    LeadsSound(s, x);
    EndAside(x, h);
    t := EndStep(x, h, x.actors[h]);
    LeadsOn(s, x, t);
    AsideOn(s, x, t, h, v);
  }
}
