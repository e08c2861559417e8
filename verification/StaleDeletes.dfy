/**
A delete that still carries a VM's name takes away the disk of any VM that is created under
that name before the delete has done its work.
*/
module StaleDeletes {
  import opened Options
  import opened OpTable
  import opened World
  import opened Invariant
  import opened Safety
  import opened EveryRun
  import opened Shapes
  import opened Progress
  import opened Futures
  import opened Guarantees

  /** Only processes, reapers and the `running` map differ. */
  predicate SameButProcs(s: State, t: State) {
    t == s.(procs := t.procs, reapers := t.reapers, t := s.t.(running := t.t.running))
  }

  lemma ExitLeads(s: State, pid: nat)
    requires pid in s.procs
    ensures Leads(s, s.(procs := s.procs - {pid}))
  {
    LeadsStep(s, Exit(pid));
  }

  lemma ReapLeads(s: State, pid: nat)
    requires pid in s.reapers && pid !in s.procs
    ensures Leads(s, if s.reapers[pid].exited then DropEntry(s, pid) else SeeExit(s, pid))
  {
    LeadsStep(s, Reap(pid));
  }

  lemma ExitStages(s: State, w: Uuid, pid: nat)
    requires w in s.t.running && s.t.running[w] == pid && pid in s.procs
    ensures Stages(s.(procs := s.procs - {pid}), w) < Stages(s, w)
  {
  }

  lemma ReapStages(s: State, w: Uuid, pid: nat)
    requires w in s.t.running && s.t.running[w] == pid && pid !in s.procs && pid in s.reapers && s.reapers[pid].u == w
    ensures s.reapers[pid].exited ==> Stages(DropEntry(s, pid), w) < Stages(s, w)
    ensures !s.reapers[pid].exited ==> Stages(SeeExit(s, pid), w) < Stages(s, w)
  {
  }

  lemma StopsOnce(s: State, w: Uuid) returns (t: State)
    requires Core(s) && w in s.t.running
    ensures Leads(s, t) && SameButProcs(s, t) && Stages(t, w) < Stages(s, w)
  {
    var pid := s.t.running[w];
    StopReaper(s, w);
    if pid in s.procs {
      t := s.(procs := s.procs - {pid});
      ExitLeads(s, pid);
      ExitStages(s, w, pid);
    } else {
      t := if s.reapers[pid].exited then DropEntry(s, pid) else SeeExit(s, pid);
      ReapLeads(s, pid);
      ReapStages(s, w, pid);
    }
  }

  /** The VM's process can exit and be reaped. */
  lemma {:induction false} Stops(s: State, w: Uuid) returns (t: State)
    requires Core(s) && Shaped(s)
    ensures Leads(s, t) && SameButProcs(s, t) && w !in t.t.running
    decreases Stages(s, w)
  {
    if w !in s.t.running {
      t := s;
      LeadsNowhere(s);
    } else {
      var x := StopsOnce(s, w);
      LeadsSound(s, x);
      t := Stops(x, w);
      LeadsOn(s, x, t);
    }
  }

  // ---------------------------------------------------------------- the delete goes on

  /** The delete is at this point, with the row it carried. */
  predicate DeleteAt(s: State, t: State, id: nat, pc: Pc) {
    id in s.actors && id in t.actors && t.actors[id] == s.actors[id].(pc := pc, held := true)
  }

  /** The operation has not moved, and its VM's token is free. */
  ghost predicate Clear(s: State, t: State, id: nat) {
    && id in s.actors && id in t.actors && t.actors[id] == s.actors[id]
    && t.cfg == s.cfg && t.rows == s.rows && t.disk == s.disk && KeepsDisks(s.fs, t.fs)
    && s.actors[id].u !in t.t.owner && s.actors[id].u !in t.t.archives
    && (s.actors[id].pc.Wait? ==> s.actors[id].arch in t.t.closed)
  }

  lemma WaitsForHolder(s: State, id: nat)
    requires Core(s) && id in s.actors && s.actors[id].pc.Wait?
    ensures var a := s.actors[id];
      a.arch in s.t.closed || (a.u in s.t.owner && s.t.owner[a.u] == a.arch && a.arch in s.actors && IsArchive(s.actors[a.arch]))
  {
    ActorAt(s, id);
  }

  lemma Clears(s: State, id: nat) returns (t: State)
    requires Core(s) && Shaped(s) && id in s.actors && !s.actors[id].held
    ensures Leads(s, t) && Clear(s, t, id)
  {
    var w := s.actors[id].u;
    if s.actors[id].pc.Wait? {
      WaitsForHolder(s, id);
    }
    if w in s.t.owner {
      t := Releases(s, w);
    } else {
      t := s;
      LeadsNowhere(s);
    }
  }

  lemma Wakes(s: State, id: nat) returns (t: State)
    requires id in s.actors && (s.actors[id].pc.Begin? || s.actors[id].pc.Wait?)
    requires s.actors[id].pc.Wait? ==> s.actors[id].arch in s.t.closed
    ensures Leads(s, t) && t == Become(s, id, s.actors[id].(pc := Begin))
  {
    LeadsNowhere(s);
    if s.actors[id].pc.Wait? {
      LeadsGo(s, s, id, LAST);
      EarlyStep(s, id, LAST);
      t := GoStep(s, id, LAST);
    } else {
      t := s;
      assert s.actors[id := s.actors[id].(pc := Begin)] == s.actors;
    }
  }

  lemma Takes(s: State, id: nat) returns (t: State)
    requires id in s.actors && s.actors[id].pc.Begin? && s.actors[id].kind == DeleteVM
    requires s.actors[id].u !in s.t.owner && s.actors[id].u !in s.t.archives
    ensures Leads(s, t) && DeleteAt(s, t, id, DeleteCheck)
    ensures t.cfg == s.cfg && t.rows == s.rows && t.disk == s.disk && t.fs == s.fs
  {
    LeadsNowhere(s);
    LeadsGo(s, s, id, LAST);
    EarlyStep(s, id, LAST);
    t := GoStep(s, id, LAST);
  }

  /** A delete that waits for its token can get it. */
  lemma Enters(s: State, id: nat) returns (t: State)
    requires Core(s) && Shaped(s) && id in s.actors && s.actors[id].kind == DeleteVM && !s.actors[id].held
    requires s.actors[id].pc.Begin? || s.actors[id].pc.Wait?
    ensures Leads(s, t) && DeleteAt(s, t, id, DeleteCheck)
    ensures t.cfg == s.cfg && t.rows == s.rows && t.disk == s.disk && KeepsDisks(s.fs, t.fs)
  {
    var x := Clears(s, id);
    var y := Wakes(x, id);
    t := Takes(y, id);
    LeadsOn(s, x, y);
    LeadsOn(s, y, t);
  }

  lemma FindsEffect(s: State, a: Actor)
    requires (a.pc.DeleteCheck? || a.pc.DeleteStop?) && a.u !in s.t.running
    ensures EffectOf(s, a, LAST) == Goto(a.(pc := DeleteHot)) && GoEnabled(s, a, LAST)
  {
  }

  lemma GotoBecomes(s: State, id: nat, a': Actor)
    ensures Perform(s, id, Goto(a')) == Become(s, id, a')
  {
  }

  lemma Finds(s: State, id: nat) returns (t: State)
    requires id in s.actors && (s.actors[id].pc.DeleteCheck? || s.actors[id].pc.DeleteStop?)
    requires s.actors[id].u !in s.t.running
    ensures Leads(s, t) && t == Become(s, id, s.actors[id].(pc := DeleteHot))
  {
    FindsEffect(s, s.actors[id]);
    GotoBecomes(s, id, s.actors[id].(pc := DeleteHot));
    LeadsNowhere(s);
    LeadsInside(s, s, id, LAST);
    t := Perform(s, id, EffectOf(s, s.actors[id], LAST));
  }

  /** With its token, it can come to the removal. */
  lemma Checks(s: State, id: nat) returns (t: State)
    requires Core(s) && Shaped(s) && id in s.actors && s.actors[id].held
    requires var pc := s.actors[id].pc; pc.DeleteCheck? || pc.DeleteStop? || pc.DeleteHot?
    ensures Leads(s, t) && DeleteAt(s, t, id, DeleteHot)
    ensures t.cfg == s.cfg && t.rows == s.rows && t.disk == s.disk && t.fs == s.fs
  {
    if s.actors[id].pc.DeleteHot? {
      t := s;
      LeadsNowhere(s);
    } else {
      var x := Stops(s, s.actors[id].u);
      t := Finds(x, id);
      LeadsOn(s, x, t);
    }
  }

  // ---------------------------------------------------------------- the removal

  /** What the steps of a delete do. */
  lemma DeleteEffects(s: State, a: Actor)
    ensures a.pc.DeleteHot? ==>
      EffectOf(s, a, LAST) == Effect(a.(pc := DeleteRecorded), RemoveHotDir(a.row.name), None, DropDisk)
    ensures a.pc.DeleteRecorded? ==>
      EffectOf(s, a, LAST) == Touch(a.(pc := DeleteCold), if a.row.archived.Some? then Remove(a.row.archived.value) else NoFile)
    ensures a.pc.DeleteCold? ==>
      EffectOf(s, a, LAST) == Touch(a.(pc := DeleteRow), if s.cfg.coldOn then RemoveColdDir(a.row.name) else NoFile)
  {
  }

  lemma ArchiveTmpEffect(s: State, a: Actor, c: Pick)
    requires a.pc.ArchiveTmp?
    ensures ColdTmp(a.row.name, c.k) !in s.fs ==> GoEnabled(s, a, c)
    ensures EffectOf(s, a, c) == Touch(a.(pc := ArchiveCopy, k := c.k, i := 0), Write(ColdTmp(a.row.name, c.k), []))
  {
  }

  lemma ArchiveDropOldEffect(s: State, a: Actor)
    requires a.pc.ArchiveDropOld?
    ensures GoEnabled(s, a, LAST)
    ensures EffectOf(s, a, LAST) == Touch(a.(pc := ArchiveRename), Remove(Cold(a.row.name)))
  {
  }

  lemma ArchiveRenameEffect(s: State, a: Actor)
    requires a.pc.ArchiveRename?
    ensures ColdTmp(a.row.name, a.k) in s.fs ==> GoEnabled(s, a, LAST)
    ensures EffectOf(s, a, LAST) == Touch(a.(pc := ArchiveRecord), Rename(ColdTmp(a.row.name, a.k), Cold(a.row.name)))
  {
  }

  lemma ArchiveRecordEffect(s: State, a: Actor)
    requires a.pc.ArchiveRecord?
    ensures a.u in s.rows ==> GoEnabled(s, a, LAST)
    ensures EffectOf(s, a, LAST) == Effect(a.(pc := ArchiveDropHot), NoFile, Some(Some(Cold(a.row.name))), KeepDisk)
  {
  }

  lemma ArchiveDropHotEffect(s: State, a: Actor)
    requires a.pc.ArchiveDropHot?
    ensures GoEnabled(s, a, LAST)
    ensures EffectOf(s, a, LAST) == Touch(a.(pc := ArchiveCleanup), Remove(Hot(a.row.name)))
  {
  }

  lemma OnlyRemoves(fs: Files, op: FileOp)
    requires op.NoFile? || op.Remove? || op.RemoveColdDir?
    ensures OnFiles(fs, op).Keys <= fs.Keys && (op.RemoveColdDir? ==> Cold(op.n) !in OnFiles(fs, op))
  {
  }

  lemma DropsHot(s: State, id: nat) returns (t: State)
    requires id in s.actors && s.actors[id].pc.DeleteHot?
    ensures var a := s.actors[id];
      Leads(s, t) && t == Become(s, id, a.(pc := DeleteRecorded)).(fs := OnFiles(s.fs, RemoveHotDir(a.row.name)), disk := s.disk - {a.u})
  {
    var a := s.actors[id];
    var e := Effect(a.(pc := DeleteRecorded), RemoveHotDir(a.row.name), None, DropDisk);
    DeleteEffects(s, a);
    LeadsEffect(s, id, LAST, e);
    t := Perform(s, id, e);
  }

  lemma DropsRecorded(s: State, id: nat) returns (t: State)
    requires id in s.actors && s.actors[id].pc.DeleteRecorded?
    ensures Leads(s, t) && t == Become(s, id, s.actors[id].(pc := DeleteCold)).(fs := t.fs) && t.fs.Keys <= s.fs.Keys
  {
    var a := s.actors[id];
    var e := Touch(a.(pc := DeleteCold), if a.row.archived.Some? then Remove(a.row.archived.value) else NoFile);
    DeleteEffects(s, a);
    OnlyRemoves(s.fs, e.file);
    LeadsEffect(s, id, LAST, e);
    t := Perform(s, id, e);
  }

  lemma DropsCold(s: State, id: nat) returns (t: State)
    requires id in s.actors && s.actors[id].pc.DeleteCold?
    ensures Leads(s, t) && t == Become(s, id, s.actors[id].(pc := DeleteRow)).(fs := t.fs) && t.fs.Keys <= s.fs.Keys
    ensures s.cfg.coldOn ==> Cold(s.actors[id].row.name) !in t.fs
  {
    var a := s.actors[id];
    var e := Touch(a.(pc := DeleteRow), if s.cfg.coldOn then RemoveColdDir(a.row.name) else NoFile);
    DeleteEffects(s, a);
    OnlyRemoves(s.fs, e.file);
    LeadsEffect(s, id, LAST, e);
    t := Perform(s, id, e);
  }

  /** The cold half of the removal. */
  lemma RemovesCold(s: State, id: nat) returns (t: State)
    requires id in s.actors && (s.actors[id].pc.DeleteRecorded? || s.actors[id].pc.DeleteCold?)
    ensures Leads(s, t) && t.cfg == s.cfg && t.rows == s.rows && t.disk == s.disk && t.fs.Keys <= s.fs.Keys
    ensures s.cfg.coldOn ==> Cold(s.actors[id].row.name) !in t.fs
  {
    if s.actors[id].pc.DeleteRecorded? {
      var x := DropsRecorded(s, id);
      t := DropsCold(x, id);
      LeadsOn(s, x, t);
    } else {
      t := DropsCold(s, id);
    }
  }

  /** The whole removal. */
  lemma Removes(s: State, id: nat) returns (t: State)
    requires id in s.actors && s.actors[id].pc.DeleteHot?
    ensures Leads(s, t) && t.cfg == s.cfg && t.rows == s.rows && t.disk == s.disk - {s.actors[id].u}
    ensures Hot(s.actors[id].row.name) !in t.fs && (s.cfg.coldOn ==> Cold(s.actors[id].row.name) !in t.fs)
  {
    var x := DropsHot(s, id);
    t := RemovesCold(x, id);
    LeadsOn(s, x, t);
  }

  /** A VM has a disk that it does not resolve to. */
  ghost predicate Lost(s: State, u: Uuid) {
    u in s.disk && !Resolves(s, u, s.disk[u])
  }

  lemma NoFileLost(s: State, u: Uuid)
    requires u in s.rows && u in s.disk && Hot(s.rows[u].name) !in s.fs
    requires s.rows[u].archived.Some? ==> s.rows[u].archived.value !in s.fs
    requires s.cfg.coldOn ==> Cold(s.rows[u].name) !in s.fs
    ensures Lost(s, u)
  {
  }

  /** The delete has its token and is on its way to the removal. */
  predicate Early(pc: Pc) {
    pc.DeleteCheck? || pc.DeleteStop? || pc.DeleteHot?
  }

  lemma HeldDestroys(s: State, id: nat, u: Uuid) returns (t: State)
    requires Core(s) && Shaped(s) && id in s.actors && s.actors[id].held && Early(s.actors[id].pc)
    requires s.actors[id].u != u
    requires u in s.rows && s.rows[u].name == s.actors[id].row.name && s.rows[u].archived.None? && u in s.disk
    ensures Leads(s, t) && Lost(t, u)
  {
    var y := Checks(s, id);
    t := Removes(y, id);
    LeadsOn(s, y, t);
    NoFileLost(t, u);
  }

  /** A delete that has not removed the hot directory yet takes any unarchived VM of its name with it. */
  lemma EarlyDestroys(s: State, id: nat, u: Uuid) returns (t: State)
    requires Core(s) && Shaped(s) && id in s.actors && Threat(s.cfg, s.actors[id])
    requires !s.actors[id].pc.DeleteRecorded? && !s.actors[id].pc.DeleteCold? && s.actors[id].u != u
    requires u in s.rows && s.rows[u].name == s.actors[id].row.name && s.rows[u].archived.None? && u in s.disk
    ensures Leads(s, t) && Lost(t, u)
  {
    CoreLocals(s, id);
    if s.actors[id].held {
      t := HeldDestroys(s, id, u);
    } else {
      var x := Enters(s, id);
      LeadsSound(s, x);
      t := HeldDestroys(x, id, u);
      LeadsOn(s, x, t);
    }
  }

  // ---------------------------------------------------------------- an operation on the new VM

  /** One more operation works on the VM under its token; all others are where they were. */
  ghost predicate Solo(s: State, t: State, j: nat, u: Uuid, pc: Pc) {
    && t.cfg == s.cfg && u in s.rows && j !in s.actors && j in t.actors
    && (forall i :: i in s.actors ==> i in t.actors && t.actors[i] == s.actors[i])
    && !Canceled(t.t, u) && u !in t.t.running
    && var b := t.actors[j];
       b.u == u && b.held && b.hasRow && b.row == s.rows[u] && b.pc == pc
  }

  predicate SameHolder(a: Actor, b: Actor) {
    b.u == a.u && b.held == a.held && b.hasRow == a.hasRow && b.row == a.row
  }

  lemma SoloStep(s: State, t: State, j: nat, u: Uuid, pc: Pc, c: Pick, e: Effect)
    requires Solo(s, t, j, u, pc) && Inside(pc) && !pc.SnapOpen? && GoEnabled(t, t.actors[j], c)
    requires e == EffectOf(t, t.actors[j], c) && SameHolder(t.actors[j], e.a)
    ensures Leads(t, Perform(t, j, e)) && Solo(s, Perform(t, j, e), j, u, e.a.pc)
  {
    LeadsNowhere(t);
    LeadsInside(t, t, j, c);
  }

  /** What a step that touches one file leaves as it was. */
  lemma TouchFacts(t: State, j: nat, a: Actor, op: FileOp)
    ensures var x := Perform(t, j, Touch(a, op));
      x.rows == t.rows && x.disk == t.disk && x.fs == OnFiles(t.fs, op) && j in x.actors && x.actors[j] == a
  {
  }

  lemma SoloTouch(s: State, t0: State, j: nat, u: Uuid, pc: Pc, c: Pick, a: Actor, op: FileOp) returns (t: State)
    requires Solo(s, t0, j, u, pc) && Inside(pc) && !pc.SnapOpen? && GoEnabled(t0, t0.actors[j], c)
    requires EffectOf(t0, t0.actors[j], c) == Touch(a, op) && SameHolder(t0.actors[j], a)
    ensures Leads(t0, t) && Solo(s, t, j, u, a.pc)
    ensures t.rows == t0.rows && t.disk == t0.disk && t.fs == OnFiles(t0.fs, op) && t.actors[j] == a
  {
    SoloStep(s, t0, j, u, pc, c, Touch(a, op));
    TouchFacts(t0, j, a, op);
    t := Perform(t0, j, Touch(a, op));
  }

  /** What a step that gives the VM its first disk leaves as it was. */
  lemma AdoptFacts(t: State, j: nat, a: Actor, op: FileOp, d: Content)
    ensures var x := Perform(t, j, Effect(a, op, None, AdoptDisk(d)));
      x.rows == t.rows && a.u in x.disk && x.fs == OnFiles(t.fs, op)
  {
  }

  lemma SoloAdopts(s: State, t0: State, j: nat, u: Uuid, pc: Pc, a: Actor, op: FileOp, d: Content) returns (t: State)
    requires Solo(s, t0, j, u, pc) && Inside(pc) && !pc.SnapOpen? && GoEnabled(t0, t0.actors[j], LAST)
    requires EffectOf(t0, t0.actors[j], LAST) == Effect(a, op, None, AdoptDisk(d)) && SameHolder(t0.actors[j], a)
    ensures Leads(t0, t) && Solo(s, t, j, u, a.pc) && t.rows == t0.rows && u in t.disk && t.fs == OnFiles(t0.fs, op)
  {
    SoloStep(s, t0, j, u, pc, LAST, Effect(a, op, None, AdoptDisk(d)));
    AdoptFacts(t0, j, a, op, d);
    t := Perform(t0, j, Effect(a, op, None, AdoptDisk(d)));
  }

  lemma Spawns(s: State, kind: Kind, u: Uuid)
    requires s.nextId !in s.actors
    ensures Leads(s, SpawnStep(s, Request(kind, u, "")))
  {
    LeadsStep(s, Spawn(kind, u, ""));
  }

  /** An operation can be asked for, and has the free token at once. */
  lemma Begins(s: State, kind: Kind, u: Uuid) returns (t: State)
    requires Core(s) && u !in s.t.owner && u !in s.t.running
    requires kind == StartVM || (kind == ArchiveStoppedVM && Active(s.cfg))
    ensures Leads(s, t) && s.nextId !in s.actors && !Canceled(t.t, u) && t.t.running == s.t.running
    ensures t == s.(actors := s.actors[s.nextId := WithToken(Request(kind, u, ""))], t := t.t, nextId := s.nextId + 1)
  {
    var a := Request(kind, u, "");
    var x := SpawnStep(s, a);
    Spawns(s, kind, u);
    LeadsGo(s, x, s.nextId, LAST);
    EarlyStep(x, s.nextId, LAST);
    t := GoStep(x, s.nextId, LAST);
    assert x.actors[s.nextId := WithToken(a)] == s.actors[s.nextId := WithToken(a)];
  }

  /** It reads the row. */
  lemma Reads(s: State, kind: Kind, u: Uuid) returns (t: State)
    requires Core(s) && u !in s.t.owner && u !in s.t.running && u in s.rows && s.rows[u].state == "stopped"
    requires kind == StartVM || (kind == ArchiveStoppedVM && Active(s.cfg))
    ensures Leads(s, t) && Solo(s, t, s.nextId, u, if kind == StartVM then HydrateStat else ArchiveCheck)
    ensures t.rows == s.rows && t.disk == s.disk && t.fs == s.fs
  {
    var x := Begins(s, kind, u);
    LeadsGo(s, x, s.nextId, Pick(true, 0, []));
    EarlyStep(x, s.nextId, Pick(true, 0, []));
    t := GoStep(x, s.nextId, Pick(true, 0, []));
  }

  /** Rows and contents are the same, and the VM's hot disk is still there. */
  predicate SameRows(s: State, t: State, u: Uuid) {
    t.rows == s.rows && t.disk == s.disk && u in s.rows && Hot(s.rows[u].name) in t.fs
  }

  /** Only the program counter moves. */
  lemma SoloGoto(s: State, t0: State, j: nat, u: Uuid, pc: Pc, pc': Pc) returns (t: State)
    requires Solo(s, t0, j, u, pc) && Inside(pc) && !pc.SnapOpen? && GoEnabled(t0, t0.actors[j], LAST)
    requires EffectOf(t0, t0.actors[j], LAST) == Goto(t0.actors[j].(pc := pc'))
    ensures Leads(t0, t) && Solo(s, t, j, u, pc') && t == Become(t0, j, t0.actors[j].(pc := pc'))
  {
    var e := EffectOf(t0, t0.actors[j], LAST);
    SoloStep(s, t0, j, u, pc, LAST, e);
    t := Perform(t0, j, e);
    GotoBecomes(t0, j, t0.actors[j].(pc := pc'));
  }

  lemma ArchiveLooks(s: State, t0: State, u: Uuid) returns (t: State)
    requires Solo(s, t0, s.nextId, u, ArchiveCheck) && SameRows(s, t0, u)
    ensures Leads(t0, t) && Solo(s, t, s.nextId, u, ArchiveTmp) && SameRows(s, t, u)
  {
    var x := SoloGoto(s, t0, s.nextId, u, ArchiveCheck, ArchiveStat);
    t := SoloGoto(s, x, s.nextId, u, ArchiveStat, ArchiveTmp);
    LeadsOn(t0, x, t);
  }

  lemma ArchiveTmps(s: State, t0: State, u: Uuid) returns (t: State)
    requires Solo(s, t0, s.nextId, u, ArchiveTmp) && SameRows(s, t0, u)
    ensures Leads(t0, t) && Solo(s, t, s.nextId, u, ArchiveCopy) && SameRows(s, t, u)
    ensures ColdTmp(s.rows[u].name, t.actors[s.nextId].k) in t.fs
  {
    var a := t0.actors[s.nextId];
    var k := Unused(t0.fs.Keys);
    ArchiveTmpEffect(t0, a, Pick(false, k, []));
    t := SoloTouch(s, t0, s.nextId, u, ArchiveTmp, Pick(false, k, []),
                   a.(pc := ArchiveCopy, k := k, i := 0), Write(ColdTmp(a.row.name, k), []));
  }

  lemma ArchiveCopyEffectIs(s: State, a: Actor)
    requires a.pc.ArchiveCopy? && !Canceled(s.t, a.u) && Hot(a.row.name) in s.fs && ColdTmp(a.row.name, a.k) in s.fs
    ensures GoEnabled(s, a, LAST)
    ensures var from, to := s.fs[Hot(a.row.name)], ColdTmp(a.row.name, a.k);
      EffectOf(s, a, LAST) ==
        if a.i < |from| then Touch(a.(i := a.i + 1), Write(to, s.fs[to] + [from[a.i]])) else Goto(a.(pc := ArchiveConfirm))
  {
  }

  lemma ArchiveBlock(s: State, t0: State, u: Uuid) returns (t: State)
    requires Solo(s, t0, s.nextId, u, ArchiveCopy) && SameRows(s, t0, u)
    requires ColdTmp(s.rows[u].name, t0.actors[s.nextId].k) in t0.fs
    ensures Leads(t0, t) && SameRows(s, t, u) && s.nextId in t.actors
    ensures ColdTmp(s.rows[u].name, t.actors[s.nextId].k) in t.fs
    ensures if t0.actors[s.nextId].i < |t0.fs[Hot(s.rows[u].name)]|
            then Solo(s, t, s.nextId, u, ArchiveCopy) && t.actors[s.nextId].i == t0.actors[s.nextId].i + 1
              && t.fs[Hot(s.rows[u].name)] == t0.fs[Hot(s.rows[u].name)]
            else Solo(s, t, s.nextId, u, ArchiveConfirm)
  {
    var a := t0.actors[s.nextId];
    var from, to := t0.fs[Hot(a.row.name)], ColdTmp(a.row.name, a.k);
    ArchiveCopyEffectIs(t0, a);
    if a.i < |from| {
      t := SoloTouch(s, t0, s.nextId, u, ArchiveCopy, LAST, a.(i := a.i + 1), Write(to, t0.fs[to] + [from[a.i]]));
    } else {
      t := SoloGoto(s, t0, s.nextId, u, ArchiveCopy, ArchiveConfirm);
    }
  }

  lemma {:induction false} ArchiveCopies(s: State, t0: State, u: Uuid) returns (t: State)
    requires Solo(s, t0, s.nextId, u, ArchiveCopy) && SameRows(s, t0, u)
    requires ColdTmp(s.rows[u].name, t0.actors[s.nextId].k) in t0.fs
    ensures Leads(t0, t) && Solo(s, t, s.nextId, u, ArchiveConfirm) && SameRows(s, t, u)
    ensures ColdTmp(s.rows[u].name, t.actors[s.nextId].k) in t.fs
    decreases Todo(t0.fs[Hot(s.rows[u].name)], t0.actors[s.nextId].i)
  {
    var x := ArchiveBlock(s, t0, u);
    if t0.actors[s.nextId].i < |t0.fs[Hot(s.rows[u].name)]| {
      t := ArchiveCopies(s, x, u);
      LeadsOn(t0, x, t);
    } else {
      t := x;
    }
  }

  lemma ArchiveConfirms(s: State, t0: State, u: Uuid) returns (t: State)
    requires Solo(s, t0, s.nextId, u, ArchiveConfirm) && SameRows(s, t0, u)
    requires ColdTmp(s.rows[u].name, t0.actors[s.nextId].k) in t0.fs
    ensures Leads(t0, t) && Solo(s, t, s.nextId, u, ArchiveDropOld) && SameRows(s, t, u)
    ensures ColdTmp(s.rows[u].name, t.actors[s.nextId].k) in t.fs
  {
    t := SoloGoto(s, t0, s.nextId, u, ArchiveConfirm, ArchiveDropOld);
  }

  lemma ArchiveDropsOld(s: State, t0: State, u: Uuid) returns (t: State)
    requires Solo(s, t0, s.nextId, u, ArchiveDropOld) && SameRows(s, t0, u)
    requires ColdTmp(s.rows[u].name, t0.actors[s.nextId].k) in t0.fs
    ensures Leads(t0, t) && Solo(s, t, s.nextId, u, ArchiveRename) && SameRows(s, t, u)
    ensures ColdTmp(s.rows[u].name, t.actors[s.nextId].k) in t.fs
  {
    var a := t0.actors[s.nextId];
    ArchiveDropOldEffect(t0, a);
    t := SoloTouch(s, t0, s.nextId, u, ArchiveDropOld, LAST, a.(pc := ArchiveRename), Remove(Cold(a.row.name)));
  }

  lemma ArchiveRenames(s: State, t0: State, u: Uuid) returns (t: State)
    requires Solo(s, t0, s.nextId, u, ArchiveRename) && SameRows(s, t0, u)
    requires ColdTmp(s.rows[u].name, t0.actors[s.nextId].k) in t0.fs
    ensures Leads(t0, t) && Solo(s, t, s.nextId, u, ArchiveRecord) && SameRows(s, t, u)
  {
    var a := t0.actors[s.nextId];
    ArchiveRenameEffect(t0, a);
    t := SoloTouch(s, t0, s.nextId, u, ArchiveRename, LAST,
                   a.(pc := ArchiveRecord), Rename(ColdTmp(a.row.name, a.k), Cold(a.row.name)));
  }

  predicate Recorded(s: State, t: State, u: Uuid) {
    u in s.rows && t.rows == s.rows[u := s.rows[u].(archived := Some(Cold(s.rows[u].name)))] && t.disk == s.disk
  }

  lemma ArchiveRecords(s: State, t0: State, u: Uuid) returns (t: State)
    requires Solo(s, t0, s.nextId, u, ArchiveRecord) && SameRows(s, t0, u)
    ensures Leads(t0, t) && Solo(s, t, s.nextId, u, ArchiveDropHot) && Recorded(s, t, u)
  {
    var a := t0.actors[s.nextId];
    var e := Effect(a.(pc := ArchiveDropHot), NoFile, Some(Some(Cold(a.row.name))), KeepDisk);
    ArchiveRecordEffect(t0, a);
    SoloStep(s, t0, s.nextId, u, ArchiveRecord, LAST, e);
    t := Perform(t0, s.nextId, e);
  }

  lemma ArchiveDrops(s: State, t0: State, u: Uuid) returns (t: State)
    requires Solo(s, t0, s.nextId, u, ArchiveDropHot)
    ensures Leads(t0, t) && Solo(s, t, s.nextId, u, ArchiveCleanup)
    ensures t.rows == t0.rows && t.disk == t0.disk && Hot(s.rows[u].name) !in t.fs
  {
    var a := t0.actors[s.nextId];
    ArchiveDropHotEffect(t0, a);
    t := SoloTouch(s, t0, s.nextId, u, ArchiveDropHot, LAST, a.(pc := ArchiveCleanup), Remove(Hot(a.row.name)));
  }

  /** A stopped VM whose token is free can be archived. */
  lemma Archives(s: State, u: Uuid) returns (t: State)
    requires Core(s) && Active(s.cfg) && u !in s.t.owner && u !in s.t.running
    requires u in s.rows && s.rows[u].state == "stopped" && Hot(s.rows[u].name) in s.fs
    ensures Leads(s, t) && Solo(s, t, s.nextId, u, ArchiveCleanup) && Recorded(s, t, u) && Hot(s.rows[u].name) !in t.fs
  {
    var t0 := Reads(s, ArchiveStoppedVM, u);
    var t1 := ArchiveLooks(s, t0, u);
    var t2 := ArchiveTmps(s, t1, u);
    var t3 := ArchiveCopies(s, t2, u);
    var t4 := ArchiveConfirms(s, t3, u);
    var t5 := ArchiveDropsOld(s, t4, u);
    var t6 := ArchiveRenames(s, t5, u);
    var t7 := ArchiveRecords(s, t6, u);
    t := ArchiveDrops(s, t7, u);
    LeadsOn(s, t0, t1);
    LeadsOn(s, t1, t2);
    LeadsOn(s, t2, t3);
    LeadsOn(s, t3, t4);
    LeadsOn(s, t4, t5);
    LeadsOn(s, t5, t6);
    LeadsOn(s, t6, t7);
    LeadsOn(s, t7, t);
  }

  /** A delete that has yet to remove the cold directory takes the VM with it once the VM is archived. */
  lemma LateDestroys(s: State, id: nat, u: Uuid) returns (t: State)
    requires Core(s) && id in s.actors && Threat(s.cfg, s.actors[id]) && Active(s.cfg)
    requires s.actors[id].pc.DeleteRecorded? || s.actors[id].pc.DeleteCold?
    requires u in s.rows && s.rows[u].name == s.actors[id].row.name && s.rows[u].state == "stopped" && u in s.disk
    requires u !in s.t.owner && u !in s.t.running && Hot(s.rows[u].name) in s.fs
    ensures Leads(s, t) && Lost(t, u)
  {
    var x := Archives(s, u);
    t := RemovesCold(x, id);
    LeadsOn(s, x, t);
    NoFileLost(t, u);
  }

  // ---------------------------------------------------------------- a first start of the new VM

  lemma StartLooks(s: State, t0: State, u: Uuid) returns (t: State)
    requires Solo(s, t0, s.nextId, u, HydrateStat) && t0.rows == s.rows && s.rows[u].archived.None?
    ensures Leads(t0, t) && t.rows == s.rows
    ensures || Solo(s, t, s.nextId, u, Ensure)
            || (Solo(s, t, s.nextId, u, HydrateTmp) && t.actors[s.nextId].src.Cold?)
  {
    var e := EffectOf(t0, t0.actors[s.nextId], LAST);
    SoloStep(s, t0, s.nextId, u, HydrateStat, LAST, e);
    t := Perform(t0, s.nextId, e);
  }

  /** The hydration's temporary file is there. */
  predicate HotTmpOpen(s: State, t: State, u: Uuid) {
    && u in s.rows && s.nextId in t.actors && t.rows == s.rows && t.actors[s.nextId].src.Cold?
    && HotTmp(s.rows[u].name, t.actors[s.nextId].k) in t.fs
  }

  lemma StartTmps(s: State, t0: State, u: Uuid) returns (t: State)
    requires Solo(s, t0, s.nextId, u, HydrateTmp) && t0.rows == s.rows && t0.actors[s.nextId].src.Cold?
    ensures Leads(t0, t) && Solo(s, t, s.nextId, u, HydrateCopy) && HotTmpOpen(s, t, u)
  {
    var k := Unused(t0.fs.Keys);
    var c := Pick(false, k, []);
    var e := EffectOf(t0, t0.actors[s.nextId], c);
    SoloStep(s, t0, s.nextId, u, HydrateTmp, c, e);
    t := Perform(t0, s.nextId, e);
  }

  lemma StartBlock(s: State, t0: State, u: Uuid) returns (t: State)
    requires Solo(s, t0, s.nextId, u, HydrateCopy) && HotTmpOpen(s, t0, u)
    ensures Leads(t0, t) && HotTmpOpen(s, t, u)
    ensures var a, b := t0.actors[s.nextId], t.actors[s.nextId];
      if a.i < |At(t0.fs, a.src)|
      then Solo(s, t, s.nextId, u, HydrateCopy) && b.i == a.i + 1 && At(t.fs, b.src) == At(t0.fs, a.src)
      else Solo(s, t, s.nextId, u, HydrateRename)
  {
    var e := EffectOf(t0, t0.actors[s.nextId], LAST);
    SoloStep(s, t0, s.nextId, u, HydrateCopy, LAST, e);
    t := Perform(t0, s.nextId, e);
  }

  lemma {:induction false} StartCopies(s: State, t0: State, u: Uuid) returns (t: State)
    requires Solo(s, t0, s.nextId, u, HydrateCopy) && HotTmpOpen(s, t0, u)
    ensures Leads(t0, t) && Solo(s, t, s.nextId, u, HydrateRename) && HotTmpOpen(s, t, u)
    decreases Todo(At(t0.fs, t0.actors[s.nextId].src), t0.actors[s.nextId].i)
  {
    var x := StartBlock(s, t0, u);
    if t0.actors[s.nextId].i < |At(t0.fs, t0.actors[s.nextId].src)| {
      t := StartCopies(s, x, u);
      LeadsOn(t0, x, t);
    } else {
      t := x;
    }
  }

  lemma StartRenames(s: State, t0: State, u: Uuid) returns (t: State)
    requires Solo(s, t0, s.nextId, u, HydrateRename) && HotTmpOpen(s, t0, u)
    ensures Leads(t0, t) && Solo(s, t, s.nextId, u, HydrateForget) && t.rows == s.rows
  {
    var e := EffectOf(t0, t0.actors[s.nextId], LAST);
    SoloStep(s, t0, s.nextId, u, HydrateRename, LAST, e);
    t := Perform(t0, s.nextId, e);
  }

  lemma StartForgets(s: State, t0: State, u: Uuid) returns (t: State)
    requires Solo(s, t0, s.nextId, u, HydrateForget) && t0.rows == s.rows && s.rows[u].archived.None?
    ensures Leads(t0, t) && Solo(s, t, s.nextId, u, HydrateDropCold) && t.rows == s.rows
  {
    var e := EffectOf(t0, t0.actors[s.nextId], LAST);
    SoloStep(s, t0, s.nextId, u, HydrateForget, LAST, e);
    t := Perform(t0, s.nextId, e);
    assert s.rows[u := s.rows[u].(archived := None)] == s.rows;
  }

  lemma StartDrops(s: State, t0: State, u: Uuid) returns (t: State)
    requires Solo(s, t0, s.nextId, u, HydrateDropCold) && t0.rows == s.rows
    ensures Leads(t0, t) && Solo(s, t, s.nextId, u, Ensure) && t.rows == s.rows
  {
    var e := EffectOf(t0, t0.actors[s.nextId], LAST);
    SoloStep(s, t0, s.nextId, u, HydrateDropCold, LAST, e);
    t := Perform(t0, s.nextId, e);
  }

  lemma StartHydrates(s: State, t0: State, u: Uuid) returns (t: State)
    requires Solo(s, t0, s.nextId, u, HydrateTmp) && t0.rows == s.rows && t0.actors[s.nextId].src.Cold?
    requires s.rows[u].archived.None?
    ensures Leads(t0, t) && Solo(s, t, s.nextId, u, Ensure) && t.rows == s.rows
  {
    var t1 := StartTmps(s, t0, u);
    var t2 := StartCopies(s, t1, u);
    var t3 := StartRenames(s, t2, u);
    var t4 := StartForgets(s, t3, u);
    t := StartDrops(s, t4, u);
    LeadsOn(t0, t1, t2);
    LeadsOn(t0, t2, t3);
    LeadsOn(t0, t3, t4);
    LeadsOn(t0, t4, t);
  }

  /** The start has a disk for its VM. */
  predicate HasDisk(s: State, t: State, u: Uuid) {
    u in s.rows && t.rows == s.rows && u in t.disk && Hot(s.rows[u].name) in t.fs
  }

  lemma FillEffectIs(s: State, a: Actor)
    requires a.pc.Fill?
    ensures GoEnabled(s, a, LAST)
    ensures EffectOf(s, a, LAST) == Effect(a.(pc := Edit), Write(Hot(a.row.name), s.cfg.base), None, AdoptDisk(s.cfg.base))
  {
  }

  lemma StartFills(s: State, t0: State, u: Uuid) returns (t: State)
    requires Solo(s, t0, s.nextId, u, Fill) && t0.rows == s.rows
    ensures Leads(t0, t) && Solo(s, t, s.nextId, u, Edit) && HasDisk(s, t, u)
  {
    var a := t0.actors[s.nextId];
    FillEffectIs(t0, a);
    t := SoloAdopts(s, t0, s.nextId, u, Fill, a.(pc := Edit), Write(Hot(a.row.name), t0.cfg.base), t0.cfg.base);
  }

  lemma EnsureFoundEffect(s: State, a: Actor)
    requires a.pc.Ensure? && Hot(a.row.name) in s.fs
    ensures GoEnabled(s, a, LAST)
    ensures EffectOf(s, a, LAST) == Effect(a.(pc := Edit), NoFile, None, AdoptDisk(s.fs[Hot(a.row.name)]))
  {
  }

  lemma EnsureMissingEffect(s: State, a: Actor)
    requires a.pc.Ensure? && Hot(a.row.name) !in s.fs
    ensures GoEnabled(s, a, LAST)
    ensures EffectOf(s, a, LAST) == Touch(a.(pc := Fill), Write(Hot(a.row.name), []))
  {
  }

  lemma StartFinds(s: State, t0: State, u: Uuid) returns (t: State)
    requires Solo(s, t0, s.nextId, u, Ensure) && t0.rows == s.rows && Hot(s.rows[u].name) in t0.fs
    ensures Leads(t0, t) && Solo(s, t, s.nextId, u, Edit) && HasDisk(s, t, u)
  {
    var a := t0.actors[s.nextId];
    EnsureFoundEffect(t0, a);
    t := SoloAdopts(s, t0, s.nextId, u, Ensure, a.(pc := Edit), NoFile, t0.fs[Hot(a.row.name)]);
  }

  lemma StartMisses(s: State, t0: State, u: Uuid) returns (t: State)
    requires Solo(s, t0, s.nextId, u, Ensure) && t0.rows == s.rows && Hot(s.rows[u].name) !in t0.fs
    ensures Leads(t0, t) && Solo(s, t, s.nextId, u, Edit) && HasDisk(s, t, u)
  {
    var a := t0.actors[s.nextId];
    EnsureMissingEffect(t0, a);
    var x := SoloTouch(s, t0, s.nextId, u, Ensure, LAST, a.(pc := Fill), Write(Hot(a.row.name), []));
    t := StartFills(s, x, u);
    LeadsOn(t0, x, t);
  }

  lemma StartEnsures(s: State, t0: State, u: Uuid) returns (t: State)
    requires Solo(s, t0, s.nextId, u, Ensure) && t0.rows == s.rows
    ensures Leads(t0, t) && Solo(s, t, s.nextId, u, Edit) && HasDisk(s, t, u)
  {
    if Hot(s.rows[u].name) in t0.fs {
      t := StartFinds(s, t0, u);
    } else {
      t := StartMisses(s, t0, u);
    }
  }

  /** The start gives up before its launch, and the VM is free again. */
  lemma StartEnds(s: State, t0: State, u: Uuid) returns (t: State)
    requires Solo(s, t0, s.nextId, u, Edit) && HasDisk(s, t0, u)
    ensures Leads(t0, t) && HasDisk(s, t, u) && t.cfg == s.cfg && u !in t.t.owner && u !in t.t.running
    ensures forall i :: i in s.actors ==> i in t.actors && t.actors[i] == s.actors[i]
  {
    var j := s.nextId;
    var x := Become(t0, j, Done(t0.actors[j]));
    LeadsStep(t0, Fail(j));
    LeadsGo(t0, x, j, LAST);
    EarlyStep(x, j, LAST);
    t := EndStep(x, j, x.actors[j]);
  }

  /** A stopped VM whose token is free can get a disk by being started, and be stopped again. */
  lemma Starts(s: State, u: Uuid) returns (t: State)
    requires Core(s) && u !in s.t.owner && u !in s.t.running && u in s.rows
    requires s.rows[u].state == "stopped" && s.rows[u].archived.None?
    ensures Leads(s, t) && HasDisk(s, t, u) && t.cfg == s.cfg && u !in t.t.owner && u !in t.t.running
    ensures forall i :: i in s.actors ==> i in t.actors && t.actors[i] == s.actors[i]
  {
    var t0 := Reads(s, StartVM, u);
    var t1 := StartLooks(s, t0, u);
    LeadsOn(s, t0, t1);
    var t2 := t1;
    if t1.actors[s.nextId].pc.HydrateTmp? {
      t2 := StartHydrates(s, t1, u);
      LeadsOn(s, t1, t2);
    }
    var t3 := StartEnsures(s, t2, u);
    LeadsOn(s, t2, t3);
    t := StartEnds(s, t3, u);
    LeadsOn(s, t3, t);
  }

  // ---------------------------------------------------------------- any delete that is a threat

  /** A stopped, unarchived VM that nothing works on, under the name that the delete carries. */
  predicate Exposed(s: State, id: nat, u: Uuid) {
    && id in s.actors && Threat(s.cfg, s.actors[id]) && s.actors[id].u != u
    && u in s.rows && s.rows[u] == Row(s.actors[id].row.name, "stopped", None) && u !in s.t.owner && u !in s.t.running
  }

  lemma DiskDestroyed(s: State, id: nat, u: Uuid) returns (t: State)
    requires Core(s) && Shaped(s) && Exposed(s, id, u) && u in s.disk && Hot(s.rows[u].name) in s.fs
    ensures Leads(s, t) && Lost(t, u)
  {
    if s.actors[id].pc.DeleteRecorded? || s.actors[id].pc.DeleteCold? {
      t := LateDestroys(s, id, u);
    } else {
      t := EarlyDestroys(s, id, u);
    }
  }

  /** With or without a disk, such a VM can lose the one it has or gets. */
  lemma Destroyed(s: State, id: nat, u: Uuid) returns (t: State)
    requires Core(s) && Shaped(s) && Exposed(s, id, u) && (u in s.disk ==> Hot(s.rows[u].name) in s.fs)
    ensures Leads(s, t) && Lost(t, u)
  {
    if u in s.disk {
      t := DiskDestroyed(s, id, u);
    } else {
      var x := Starts(s, u);
      LeadsSound(s, x);
      t := DiskDestroyed(x, id, u);
      LeadsOn(s, x, t);
    }
  }
}
