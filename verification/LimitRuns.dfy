/** Two short careful runs from an empty host that come to a create, and to a save, that must not be made. */
module LimitRuns {
  import opened Options
  import opened OpTable
  import opened World
  import opened Safety
  import opened EveryRun
  import opened CarefulRuns
  import opened Guarantees
  import opened Futures
  import opened StaleDeletes
  import opened Limits

  const HOST := Config(false, false, [])
  const NOW := Pick(false, 0, [])

  /** A state of a host without processes. */
  function Idle(rows: map<Uuid, Row>, fs: Files, disk: map<Uuid, Content>, owner: map<Uuid, nat>,
                actors: map<nat, Actor>, snaps: map<string, Saved>, nextId: nat): State
  {
    State(HOST, rows, fs, disk, Table(map[], owner, map[], {}), map[], map[], actors, snaps, nextId, 0)
  }

  ghost predicate Possible(s: State) {
    Reachable(true, s)
  }

  lemma Next(s: State, l: Label, s': State)
    requires Possible(s) && Enabled(s, l) && s' == Apply(s, l)
    requires (l.Create? ==> s.actors == map[]) && (l.Go? ==> !s.actors[l.id].pc.SnapOpen?)
    ensures Possible(s')
  {
    NextReachable(true, s, l);
  }

  lemma Start()
    ensures Possible(Idle(map[], map[], map[], map[], map[], map[], 0))
  {
    assert Executable(Init(HOST), []) && CarefulRun(true, Init(HOST), []) && Run(Init(HOST), []) == Init(HOST);
  }

  // ---------------------------------------------------------------- a name is taken again too early

  const ROW := Row("n", "stopped", None)
  const ASKED := Request(DeleteVM, "u", "")

  /** The delete of VM `u`, after it has read the row. */
  function Deleting(pc: Pc, held: bool): Actor {
    ASKED.(pc := pc, held := held, row := ROW, hasRow := true)
  }

  /** Two deletes of VM `u` have read its row; the second is at `a`. */
  function Racing(owner: map<Uuid, nat>, a: Actor): State {
    Idle(map["u" := ROW], map[], map[], owner, map[0 := Deleting(Begin, false), 1 := a], map[], 2)
  }

  function Asking(actors: map<nat, Actor>): State {
    Idle(map["u" := ROW], map[], map[], map[], actors, map[], |actors|)
  }

  lemma Created()
    ensures Possible(Asking(map[]))
  {
    Start();
    Next(Init(HOST), Create("u", "n", None), Asking(map[]));
  }

  lemma OneDelete()
    ensures Possible(Asking(map[0 := ASKED]))
  {
    Created();
    Next(Asking(map[]), Spawn(DeleteVM, "u", ""), Asking(map[0 := ASKED]));
  }

  lemma TwoDeletes()
    ensures Possible(Asking(map[0 := ASKED, 1 := ASKED]))
  {
    OneDelete();
    Next(Asking(map[0 := ASKED]), Spawn(DeleteVM, "u", ""), Asking(map[0 := ASKED, 1 := ASKED]));
  }

  lemma OneRead()
    ensures Possible(Asking(map[0 := Deleting(Begin, false), 1 := ASKED]))
  {
    TwoDeletes();
    Next(Asking(map[0 := ASKED, 1 := ASKED]), Go(0, NOW), Asking(map[0 := Deleting(Begin, false), 1 := ASKED]));
  }

  lemma TwoRead()
    ensures Possible(Racing(map[], Deleting(Begin, false)))
  {
    OneRead();
    Next(Asking(map[0 := Deleting(Begin, false), 1 := ASKED]), Go(1, NOW), Racing(map[], Deleting(Begin, false)));
  }

  lemma SecondBegins()
    ensures Possible(Racing(map["u" := 1], Deleting(DeleteCheck, true)))
  {
    TwoRead();
    Next(Racing(map[], Deleting(Begin, false)), Go(1, NOW), Racing(map["u" := 1], Deleting(DeleteCheck, true)));
  }

  lemma Moves(s: State, id: nat, e: Effect, s': State)
    requires Possible(s) && id in s.actors && Inside(s.actors[id].pc) && !s.actors[id].pc.SnapOpen?
    requires GoEnabled(s, s.actors[id], NOW) && EffectOf(s, s.actors[id], NOW) == e && Perform(s, id, e) == s'
    ensures Possible(s')
  {
    InsideStep(s, id, NOW);
    Next(s, Go(id, NOW), s');
  }

  lemma DeleteCheckEffect(s: State, a: Actor)
    requires a.pc.DeleteCheck? && a.u !in s.t.running
    ensures GoEnabled(s, a, NOW) && EffectOf(s, a, NOW) == Goto(a.(pc := DeleteHot))
  {
  }

  lemma DeleteHotEffect(s: State, a: Actor)
    requires a.pc.DeleteHot?
    ensures GoEnabled(s, a, NOW)
    ensures EffectOf(s, a, NOW) == Effect(a.(pc := DeleteRecorded), RemoveHotDir(a.row.name), None, DropDisk)
  {
  }

  lemma DeleteRecordedEffect(s: State, a: Actor)
    requires a.pc.DeleteRecorded? && a.row.archived.None?
    ensures GoEnabled(s, a, NOW) && EffectOf(s, a, NOW) == Touch(a.(pc := DeleteCold), NoFile)
  {
  }

  lemma DeleteColdEffect(s: State, a: Actor)
    requires a.pc.DeleteCold? && !s.cfg.coldOn
    ensures GoEnabled(s, a, NOW) && EffectOf(s, a, NOW) == Touch(a.(pc := DeleteRow), NoFile)
  {
  }

  lemma SecondChecks()
    ensures Possible(Racing(map["u" := 1], Deleting(DeleteHot, true)))
  {
    SecondBegins();
    DeleteCheckEffect(Racing(map["u" := 1], Deleting(DeleteCheck, true)), Deleting(DeleteCheck, true));
    Moves(Racing(map["u" := 1], Deleting(DeleteCheck, true)), 1, Goto(Deleting(DeleteHot, true)),
          Racing(map["u" := 1], Deleting(DeleteHot, true)));
  }

  lemma SecondRemoved(s: State, s': State)
    requires s == Racing(map["u" := 1], Deleting(DeleteHot, true)) && s' == Racing(map["u" := 1], Deleting(DeleteRecorded, true))
    ensures Perform(s, 1, Effect(Deleting(DeleteRecorded, true), RemoveHotDir("n"), None, DropDisk)) == s'
  {
  }

  lemma SecondRemoves()
    ensures Possible(Racing(map["u" := 1], Deleting(DeleteRecorded, true)))
  {
    SecondChecks();
    var s, s' := Racing(map["u" := 1], Deleting(DeleteHot, true)), Racing(map["u" := 1], Deleting(DeleteRecorded, true));
    DeleteHotEffect(s, Deleting(DeleteHot, true));
    SecondRemoved(s, s');
    Moves(s, 1, Effect(Deleting(DeleteRecorded, true), RemoveHotDir("n"), None, DropDisk), s');
  }

  lemma SecondForgets()
    ensures Possible(Racing(map["u" := 1], Deleting(DeleteCold, true)))
  {
    SecondRemoves();
    DeleteRecordedEffect(Racing(map["u" := 1], Deleting(DeleteRecorded, true)), Deleting(DeleteRecorded, true));
    Moves(Racing(map["u" := 1], Deleting(DeleteRecorded, true)), 1, Touch(Deleting(DeleteCold, true), NoFile),
          Racing(map["u" := 1], Deleting(DeleteCold, true)));
  }

  lemma SecondDeletes()
    ensures Possible(Racing(map["u" := 1], Deleting(DeleteRow, true)))
  {
    SecondForgets();
    DeleteColdEffect(Racing(map["u" := 1], Deleting(DeleteCold, true)), Deleting(DeleteCold, true));
    Moves(Racing(map["u" := 1], Deleting(DeleteCold, true)), 1, Touch(Deleting(DeleteRow, true), NoFile),
          Racing(map["u" := 1], Deleting(DeleteRow, true)));
  }

  /** The second delete is over; the first still carries the row. */
  function Left(owner: map<Uuid, nat>, actors: map<nat, Actor>): State {
    Idle(map[], map[], map[], owner, actors, map[], 2)
  }

  lemma RowGone()
    ensures Possible(Left(map["u" := 1], map[0 := Deleting(Begin, false), 1 := Done(Deleting(DeleteRow, true))]))
  {
    SecondDeletes();
    var a := Deleting(DeleteRow, true);
    Next(Racing(map["u" := 1], a), Go(1, NOW), Left(map["u" := 1], map[0 := Deleting(Begin, false), 1 := Done(a)]));
  }

  lemma SecondEnds()
    ensures Possible(Left(map[], map[0 := Deleting(Begin, false)]))
  {
    RowGone();
    var s := Left(map["u" := 1], map[0 := Deleting(Begin, false), 1 := Done(Deleting(DeleteRow, true))]);
    Next(s, Go(1, NOW), Left(map[], map[0 := Deleting(Begin, false)]));
  }

  /** A careful run can come to a create that costs the new VM its disk: two deletes of one VM, and then its name again. */
  lemma NameReuseLosesDisk()
    ensures exists s, u, name, image ::
      Reachable(true, s) && Enabled(s, Create(u, name, image)) && !DisksEndure(CreateStep(s, u, name, image))
  {
    SecondEnds();
    var s := Left(map[], map[0 := Deleting(Begin, false)]);
    TidyReachable(s);
    assert Threat(s.cfg, s.actors[0]) && !Careful(s, Create("v", "n", Some([7])));
    CreateExactly(s, "v", "n", Some([7]));
  }

  // ---------------------------------------------------------------- two saves to one snapshot name

  const SAVE := Request(SaveSnapshot, "u", "s")

  /** A save of VM `u` to snapshot `s`, after it has read the row. */
  function Saver(pc: Pc, held: bool, i: nat): Actor {
    SAVE.(pc := pc, held := held, row := ROW, hasRow := true, i := i,
          src := if held && !pc.SnapCheck? && !pc.SnapResolve? then Hot("n") else Snap(""))
  }

  function Shot(copy: Files, owner: map<Uuid, nat>, actors: map<nat, Actor>, snaps: map<string, Saved>, nextId: nat): State {
    Idle(map["u" := ROW], map[Hot("n") := [1]] + copy, map["u" := [1]], owner, actors, snaps, nextId)
  }

  const WAITING := Saver(Begin, false, 0)

  /** Both saves have found the name free; the first is at `a`. */
  function First(copy: Files, owner: map<Uuid, nat>, a: Actor): State {
    Shot(copy, owner, map[0 := a, 1 := WAITING], map[], 2)
  }

  lemma SavesAsked()
    ensures Possible(Shot(map[], map[], map[0 := SAVE, 1 := SAVE], map[], 2))
  {
    Start();
    Next(Init(HOST), Create("u", "n", Some([1])), Shot(map[], map[], map[], map[], 0));
    Next(Shot(map[], map[], map[], map[], 0), Spawn(SaveSnapshot, "u", "s"), Shot(map[], map[], map[0 := SAVE], map[], 1));
    Next(Shot(map[], map[], map[0 := SAVE], map[], 1), Spawn(SaveSnapshot, "u", "s"),
         Shot(map[], map[], map[0 := SAVE, 1 := SAVE], map[], 2));
  }

  lemma ExistsStep(s: State, id: nat)
    requires id in s.actors && s.actors[id].pc.SnapExists? && s.actors[id].sn !in s.snaps
    ensures Enabled(s, Go(id, NOW)) && Apply(s, Go(id, NOW)) == Become(s, id, s.actors[id].(pc := Read))
  {
  }

  lemma OneChecked()
    ensures Possible(Shot(map[], map[], map[0 := SAVE.(pc := Read), 1 := SAVE], map[], 2))
  {
    SavesAsked();
    var s := Shot(map[], map[], map[0 := SAVE, 1 := SAVE], map[], 2);
    ExistsStep(s, 0);
    Next(s, Go(0, NOW), Shot(map[], map[], map[0 := SAVE.(pc := Read), 1 := SAVE], map[], 2));
  }

  lemma SavesChecked()
    ensures Possible(Shot(map[], map[], map[0 := SAVE.(pc := Read), 1 := SAVE.(pc := Read)], map[], 2))
  {
    OneChecked();
    var s := Shot(map[], map[], map[0 := SAVE.(pc := Read), 1 := SAVE], map[], 2);
    ExistsStep(s, 1);
    Next(s, Go(1, NOW), Shot(map[], map[], map[0 := SAVE.(pc := Read), 1 := SAVE.(pc := Read)], map[], 2));
  }

  lemma SavesRead()
    ensures Possible(First(map[], map[], WAITING))
  {
    SavesChecked();
    var mid := Shot(map[], map[], map[0 := WAITING, 1 := SAVE.(pc := Read)], map[], 2);
    Next(Shot(map[], map[], map[0 := SAVE.(pc := Read), 1 := SAVE.(pc := Read)], map[], 2), Go(0, NOW), mid);
    Next(mid, Go(1, NOW), First(map[], map[], WAITING));
  }

  const COPY := map[Snap("s") := [1]]

  lemma FirstBegins()
    ensures Possible(First(map[], map["u" := 0], Saver(SnapCheck, true, 0)))
  {
    SavesRead();
    Next(First(map[], map[], WAITING), Go(0, NOW), First(map[], map["u" := 0], Saver(SnapCheck, true, 0)));
  }

  lemma CheckEffect(s: State, a: Actor)
    requires a.pc.SnapCheck? && a.u !in s.t.running && a.row.state == "stopped"
    ensures GoEnabled(s, a, NOW) && EffectOf(s, a, NOW) == Goto(a.(pc := SnapResolve))
  {
  }

  lemma ResolveEffect(s: State, a: Actor)
    requires a.pc.SnapResolve? && Hot(a.row.name) in s.fs
    ensures GoEnabled(s, a, NOW) && EffectOf(s, a, NOW) == Goto(a.(pc := SnapOpen, src := Hot(a.row.name)))
  {
  }

  lemma OpenEffect(s: State, a: Actor)
    requires a.pc.SnapOpen? && a.src in s.fs
    ensures GoEnabled(s, a, NOW) && EffectOf(s, a, NOW) == Touch(a.(pc := SnapCopy, i := 0), Write(Snap(a.sn), []))
  {
  }

  lemma CopyEffect(s: State, a: Actor)
    requires a.pc.SnapCopy? && a.src in s.fs && Snap(a.sn) in s.fs
    ensures GoEnabled(s, a, NOW)
    ensures EffectOf(s, a, NOW) ==
      if a.i < |s.fs[a.src]| then Touch(a.(i := a.i + 1), Write(Snap(a.sn), s.fs[Snap(a.sn)] + [s.fs[a.src][a.i]]))
      else Goto(a.(pc := SnapCommit))
  {
  }

  lemma Wrote(copy: Files, copy': Files, c: Content)
    requires (copy == map[] || copy.Keys == {Snap("s")}) && copy' == map[Snap("s") := c]
    ensures (map[Hot("n") := [1]] + copy)[Snap("s") := c] == map[Hot("n") := [1]] + copy'
  {
  }

  lemma FirstChecks()
    ensures Possible(First(map[], map["u" := 0], Saver(SnapResolve, true, 0)))
  {
    FirstBegins();
    var s := First(map[], map["u" := 0], Saver(SnapCheck, true, 0));
    CheckEffect(s, s.actors[0]);
    Moves(s, 0, Goto(Saver(SnapResolve, true, 0)), First(map[], map["u" := 0], Saver(SnapResolve, true, 0)));
  }

  lemma FirstResolves()
    ensures Possible(First(map[], map["u" := 0], Saver(SnapOpen, true, 0)))
  {
    FirstChecks();
    var s := First(map[], map["u" := 0], Saver(SnapResolve, true, 0));
    ResolveEffect(s, s.actors[0]);
    Moves(s, 0, Goto(Saver(SnapOpen, true, 0)), First(map[], map["u" := 0], Saver(SnapOpen, true, 0)));
  }

  lemma OpensUnrecorded(s: State, id: nat, e: Effect, s': State)
    requires Possible(s) && id in s.actors && s.actors[id].pc.SnapOpen? && MayOpen(s, id)
    requires GoEnabled(s, s.actors[id], NOW) && EffectOf(s, s.actors[id], NOW) == e && Perform(s, id, e) == s'
    ensures Possible(s')
  {
    InsideStep(s, id, NOW);
    NextReachable(true, s, Go(id, NOW));
  }

  lemma FirstMayOpen(s: State)
    requires s == First(map[], map["u" := 0], Saver(SnapOpen, true, 0))
    ensures MayOpen(s, 0)
  {
  }

  lemma FirstOpened(s: State, s': State)
    requires s == First(map[], map["u" := 0], Saver(SnapOpen, true, 0))
    requires s' == First(map[Snap("s") := []], map["u" := 0], Saver(SnapCopy, true, 0))
    ensures Perform(s, 0, Touch(Saver(SnapCopy, true, 0), Write(Snap("s"), []))) == s'
  {
    Wrote(map[], map[Snap("s") := []], []);
  }

  lemma FirstOpens()
    ensures Possible(First(map[Snap("s") := []], map["u" := 0], Saver(SnapCopy, true, 0)))
  {
    FirstResolves();
    var s := First(map[], map["u" := 0], Saver(SnapOpen, true, 0));
    var s' := First(map[Snap("s") := []], map["u" := 0], Saver(SnapCopy, true, 0));
    OpenEffect(s, s.actors[0]);
    FirstMayOpen(s);
    FirstOpened(s, s');
    OpensUnrecorded(s, 0, Touch(Saver(SnapCopy, true, 0), Write(Snap("s"), [])), s');
  }

  lemma FirstCopied(s: State, s': State)
    requires s == First(map[Snap("s") := []], map["u" := 0], Saver(SnapCopy, true, 0))
    requires s' == First(COPY, map["u" := 0], Saver(SnapCopy, true, 1))
    ensures Perform(s, 0, Touch(Saver(SnapCopy, true, 1), Write(Snap("s"), [1]))) == s'
  {
    Wrote(map[Snap("s") := []], COPY, [1]);
  }

  lemma FirstCopyEffect(s: State)
    requires s == First(map[Snap("s") := []], map["u" := 0], Saver(SnapCopy, true, 0))
    ensures GoEnabled(s, s.actors[0], NOW)
    ensures EffectOf(s, s.actors[0], NOW) == Touch(Saver(SnapCopy, true, 1), Write(Snap("s"), [1]))
  {
    CopyEffect(s, s.actors[0]);
    assert s.fs[Snap("s")] + [s.fs[Hot("n")][0]] == [1];
  }

  lemma FirstCopies()
    ensures Possible(First(COPY, map["u" := 0], Saver(SnapCopy, true, 1)))
  {
    FirstOpens();
    var s := First(map[Snap("s") := []], map["u" := 0], Saver(SnapCopy, true, 0));
    var s' := First(COPY, map["u" := 0], Saver(SnapCopy, true, 1));
    FirstCopyEffect(s);
    FirstCopied(s, s');
    Moves(s, 0, Touch(Saver(SnapCopy, true, 1), Write(Snap("s"), [1])), s');
  }

  lemma FirstFinishes()
    ensures Possible(First(COPY, map["u" := 0], Saver(SnapCommit, true, 1)))
  {
    FirstCopies();
    var s := First(COPY, map["u" := 0], Saver(SnapCopy, true, 1));
    CopyEffect(s, s.actors[0]);
    Moves(s, 0, Goto(Saver(SnapCommit, true, 1)), First(COPY, map["u" := 0], Saver(SnapCommit, true, 1)));
  }

  const TAKEN := map["s" := Saved("u", Some([1]))]

  lemma FirstCommits()
    ensures Possible(Shot(COPY, map["u" := 0], map[0 := Done(Saver(SnapCommit, true, 1)), 1 := WAITING], TAKEN, 2))
  {
    FirstFinishes();
    var s := First(COPY, map["u" := 0], Saver(SnapCommit, true, 1));
    Next(s, Go(0, NOW), Shot(COPY, map["u" := 0], map[0 := Done(Saver(SnapCommit, true, 1)), 1 := WAITING], TAKEN, 2));
  }

  lemma FirstEnds()
    ensures Possible(Shot(COPY, map[], map[1 := WAITING], TAKEN, 2))
  {
    FirstCommits();
    var s := Shot(COPY, map["u" := 0], map[0 := Done(Saver(SnapCommit, true, 1)), 1 := WAITING], TAKEN, 2);
    Next(s, Go(0, NOW), Shot(COPY, map[], map[1 := WAITING], TAKEN, 2));
  }

  lemma SecondSaveBegins()
    ensures Possible(Shot(COPY, map["u" := 1], map[1 := Saver(SnapCheck, true, 0)], TAKEN, 2))
  {
    FirstEnds();
    Next(Shot(COPY, map[], map[1 := WAITING], TAKEN, 2), Go(1, NOW),
         Shot(COPY, map["u" := 1], map[1 := Saver(SnapCheck, true, 0)], TAKEN, 2));
  }

  lemma SecondSaveChecks()
    ensures Possible(Shot(COPY, map["u" := 1], map[1 := Saver(SnapResolve, true, 0)], TAKEN, 2))
  {
    SecondSaveBegins();
    var s := Shot(COPY, map["u" := 1], map[1 := Saver(SnapCheck, true, 0)], TAKEN, 2);
    CheckEffect(s, s.actors[1]);
    Moves(s, 1, Goto(Saver(SnapResolve, true, 0)), Shot(COPY, map["u" := 1], map[1 := Saver(SnapResolve, true, 0)], TAKEN, 2));
  }

  lemma SecondSaveResolves()
    ensures Possible(Shot(COPY, map["u" := 1], map[1 := Saver(SnapOpen, true, 0)], TAKEN, 2))
  {
    SecondSaveChecks();
    var s := Shot(COPY, map["u" := 1], map[1 := Saver(SnapResolve, true, 0)], TAKEN, 2);
    ResolveEffect(s, s.actors[1]);
    Moves(s, 1, Goto(Saver(SnapOpen, true, 0)), Shot(COPY, map["u" := 1], map[1 := Saver(SnapOpen, true, 0)], TAKEN, 2));
  }

  /** A careful and tidy run can come to a save that spoils the snapshot which an earlier save to that name has recorded. */
  lemma SecondSaveSpoilsSnapshot()
    ensures exists s, id, c ::
      Reachable(true, s) && Enabled(s, Go(id, c)) && s.actors[id].pc.SnapOpen? && !SnapshotsEndure(GoStep(s, id, c))
  {
    SecondSaveResolves();
    var s := Shot(COPY, map["u" := 1], map[1 := Saver(SnapOpen, true, 0)], TAKEN, 2);
    assert Enabled(s, Go(1, NOW)) && !MayOpen(s, 1) && Tracked(s, "s") && At(s.fs, Hot("n")) == [1];
    OpenExactly(s, 1, NOW);
  }
}
