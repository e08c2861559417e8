/** What careful runs guarantee to the owner of a VM, whatever interleaves or crashes. */
module Guarantees {
  import opened Options
  import opened OpTable
  import opened World
  import opened Invariant
  import opened Frames
  import opened Safety
  import opened EveryRun
  import opened Shapes
  import opened Erasure
  import opened MutedSaves
  import opened CarefulRuns
  import InsideSteps
  import LaunchSteps

  // ---------------------------------------------------------------- no disk is lost

  /** The VM resolves to a file that holds exactly this content. */
  predicate Resolves(s: State, u: Uuid, c: Content) {
    && u in s.rows
    && var path := VmDiskPath(s.cfg, s.fs, s.rows[u]);
       path.Ok? && path.value in s.fs && s.fs[path.value] == c
  }

  lemma SafeDisk(tidy: bool, s: State, u: Uuid)
    requires Blind(tidy, s) && u in s.disk
    ensures DiskOk(s, u) && Resolves(s, u, s.disk[u])
  {
    Seen(tidy, s);
    assert DiskOk(Erase(tidy, s), u);
  }

  /** Every VM that has a disk resolves to it, in every state of every careful run. */
  lemma NoDiskLost(s: State, u: Uuid)
    requires Reachable(false, s) && u in s.disk
    ensures Resolves(s, u, s.disk[u])
  {
    ReachableSafe(false, s);
    SafeDisk(false, s, u);
  }

  /** A guest write to the VM's disk, an edit by its start, or the removal by its delete. */
  predicate Touches(s: State, l: Label, u: Uuid) {
    match l
    case GuestWrite(pid, _) => pid in s.procs && s.procs[pid].u == u
    case Go(id, c) =>
      id in s.actors && s.actors[id].u == u && (s.actors[id].pc.DeleteHot? || (s.actors[id].pc.Edit? && c.yes))
    case _ => false
  }

  /** The effect leaves the content of a VM that has a disk, unless it is an edit or a removal. */
  predicate PlainDisk(a: Actor, c: Pick, e: Effect) {
    e.a.u == a.u && (e.disk.KeepDisk? || e.disk.AdoptDisk? || (a.pc.Edit? && c.yes) || a.pc.DeleteHot?)
  }

  lemma CheckingDisk(s: State, a: Actor, c: Pick)
    requires Checking(a.pc)
    ensures PlainDisk(a, c, EffectOf(s, a, c))
  {
  }

  lemma HydratingDisk(s: State, a: Actor, c: Pick)
    requires Hydrating(a.pc)
    ensures PlainDisk(a, c, EffectOf(s, a, c))
  {
  }

  lemma PreparingDisk(s: State, a: Actor, c: Pick)
    requires Preparing(a.pc)
    ensures PlainDisk(a, c, EffectOf(s, a, c))
  {
  }

  lemma ArchivingDisk(s: State, a: Actor, c: Pick)
    requires Archiving(a.pc)
    ensures PlainDisk(a, c, EffectOf(s, a, c))
  {
  }

  lemma ArchiveEndingDisk(s: State, a: Actor, c: Pick)
    requires ArchiveEnding(a.pc)
    ensures PlainDisk(a, c, EffectOf(s, a, c))
  {
  }

  lemma DeletingDisk(s: State, a: Actor, c: Pick)
    requires Deleting(a.pc)
    ensures PlainDisk(a, c, EffectOf(s, a, c))
  {
  }

  lemma SavingDisk(s: State, a: Actor, c: Pick)
    requires Saving(a.pc)
    ensures PlainDisk(a, c, EffectOf(s, a, c))
  {
  }

  lemma EffectDisk(s: State, a: Actor, c: Pick)
    requires Inside(a.pc)
    ensures PlainDisk(a, c, EffectOf(s, a, c))
  {
    if Checking(a.pc) {
      CheckingDisk(s, a, c);
    } else if Hydrating(a.pc) {
      HydratingDisk(s, a, c);
    } else if Preparing(a.pc) {
      PreparingDisk(s, a, c);
    } else if Archiving(a.pc) {
      ArchivingDisk(s, a, c);
    } else if ArchiveEnding(a.pc) {
      ArchiveEndingDisk(s, a, c);
    } else if Deleting(a.pc) {
      DeletingDisk(s, a, c);
    } else {
      SavingDisk(s, a, c);
    }
  }

  lemma ContentKeptInside(s: State, id: nat, c: Pick, u: Uuid)
    requires id in s.actors && u in s.disk && !Touches(s, Go(id, c), u) && Inside(s.actors[id].pc)
    ensures u in GoStep(s, id, c).disk && GoStep(s, id, c).disk[u] == s.disk[u]
  {
    InsideStep(s, id, c);
    EffectDisk(s, s.actors[id], c);
  }

  /** Only the operations and their tokens differ. */
  predicate TableOnly(s: State, s': State) {
    s'.fs == s.fs && s'.rows == s.rows && s'.disk == s.disk && s'.procs == s.procs && s'.snaps == s.snaps
  }

  lemma BeginOnly(s: State, id: nat, a: Actor, b: Begun)
    ensures TableOnly(s, AfterBegin(s, id, a, b))
  {
    match b.outcome
    case Busy =>
    case WaitFor(_) =>
    case Granted =>
  }

  lemma TableStepOnly(s: State, id: nat, c: Pick)
    requires id in s.actors
    requires var pc := s.actors[id].pc; pc.Begin? || pc.Wait? || pc.Read? || pc.SnapExists? || pc.End?
    ensures TableOnly(s, GoStep(s, id, c))
  {
    EarlyStep(s, id, c);
    match s.actors[id].pc
    case Begin => BeginOnly(s, id, s.actors[id], TryBegin(s.t, s.actors[id], id));
    case Wait =>
    case Read =>
    case SnapExists =>
    case End =>
  }

  lemma ContentKeptLate(s: State, id: nat, c: Pick, u: Uuid)
    requires id in s.actors && u in s.disk
    requires Late(s.actors[id].pc)
    ensures u in GoStep(s, id, c).disk && GoStep(s, id, c).disk[u] == s.disk[u]
  {
    LateStep(s, id, c);
  }

  lemma ContentKeptOutside(s: State, id: nat, c: Pick, u: Uuid)
    requires id in s.actors && u in s.disk && !Inside(s.actors[id].pc)
    ensures u in GoStep(s, id, c).disk && GoStep(s, id, c).disk[u] == s.disk[u]
  {
    var pc := s.actors[id].pc;
    if pc.Begin? || pc.Wait? || pc.Read? || pc.SnapExists? || pc.End? {
      TableStepOnly(s, id, c);
    } else {
      ContentKeptLate(s, id, c, u);
    }
  }

  /** No other step changes the content of a VM that has a disk. */
  lemma ContentKept(s: State, l: Label, u: Uuid)
    requires Enabled(s, l) && u in s.disk && !Touches(s, l, u)
    ensures u in Apply(s, l).disk && Apply(s, l).disk[u] == s.disk[u]
  {
    if l.Go? {
      if Inside(s.actors[l.id].pc) {
        ContentKeptInside(s, l.id, l.pick, u);
      } else {
        ContentKeptOutside(s, l.id, l.pick, u);
      }
    }
  }

  /** No step of the run touches the VM's content. */
  predicate Untouched(s: State, ls: seq<Label>, u: Uuid)
    requires Executable(s, ls)
    decreases |ls|
  {
    ls == [] || (!Touches(s, ls[0], u) && Untouched(Apply(s, ls[0]), ls[1..], u))
  }

  lemma {:induction false} RunContentKept(s: State, ls: seq<Label>, u: Uuid)
    requires Executable(s, ls) && Untouched(s, ls, u) && u in s.disk
    ensures u in Run(s, ls).disk && Run(s, ls).disk[u] == s.disk[u]
    decreases |ls|
  {
    if ls != [] {
      ContentKept(s, ls[0], u);
      RunContentKept(Apply(s, ls[0]), ls[1..], u);
    }
  }

  /**
  Archives, hydrations, snapshots, stops, starts that edit nothing, failures and crashes, in
  any interleaving, leave the VM resolving to the content it had.
  */
  lemma ContentSurvives(s: State, ls: seq<Label>, u: Uuid)
    requires Reachable(false, s) && Executable(s, ls) && CarefulRun(false, s, ls) && Untouched(s, ls, u) && u in s.disk
    ensures Resolves(s, u, s.disk[u]) && Resolves(Run(s, ls), u, s.disk[u])
  {
    NoDiskLost(s, u);
    RunContentKept(s, ls, u);
    ReachableRun(false, s, ls);
    NoDiskLost(Run(s, ls), u);
  }

  // ---------------------------------------------------------------- starts

  /** What an operation that is left in the view relies on. */
  lemma PlainPc(tidy: bool, s: State, id: nat)
    requires Blind(tidy, s) && id in s.actors && Plain(tidy, s, s.actors[id])
    ensures PcOk(Erase(tidy, s), s.actors[id])
  {
    Seen(tidy, s);
    PlainAt(tidy, s, id);
    PcAt(Erase(tidy, s), id);
  }

  lemma StartPlain(s: State, id: nat)
    requires Shaped(s) && id in s.actors && (Preparing(s.actors[id].pc) || s.actors[id].pc.Launch?)
    ensures Plain(false, s, s.actors[id])
  {
    assert ShapeOk(s.cfg, s.actors[id]);
  }

  lemma BootKnows(s: State, a: Actor)
    requires PcOk(s, a) && (a.pc.Edit? || a.pc.Launch?)
    ensures a.u in s.rows && a.u in s.disk && s.rows[a.u].archived.None? && Hot(s.rows[a.u].name) in s.fs
  {
  }

  /** The VM is unarchived and its hot disk holds this content. */
  predicate HotHolds(s: State, u: Uuid, c: Content) {
    && u in s.rows && s.rows[u].archived.None? && VmDiskPath(s.cfg, s.fs, s.rows[u]) == Ok(Hot(s.rows[u].name))
    && Hot(s.rows[u].name) in s.fs && s.fs[Hot(s.rows[u].name)] == c
  }

  /** From its first edit to its launch, a start finds the VM's content in place and no archive recorded. */
  lemma BootFindsDisk(s: State, id: nat)
    requires Reachable(false, s) && id in s.actors && (s.actors[id].pc.Edit? || s.actors[id].pc.Launch?)
    ensures var u := s.actors[id].u; u in s.disk && HotHolds(s, u, s.disk[u])
  {
    ReachableSafe(false, s);
    StartPlain(s, id);
    PlainPc(false, s, id);
    BootKnows(Erase(false, s), s.actors[id]);
    SafeDisk(false, s, s.actors[id].u);
  }

  /** Whatever happened to a VM before, its start comes to its edits with that content or not at all. */
  lemma StartKeepsContent(s: State, ls: seq<Label>, id: nat)
    requires Reachable(false, s) && Executable(s, ls) && CarefulRun(false, s, ls)
    requires id in Run(s, ls).actors && Run(s, ls).actors[id].pc.Edit?
    requires var u := Run(s, ls).actors[id].u; u in s.disk && Untouched(s, ls, u)
    ensures var u, s' := Run(s, ls).actors[id].u, Run(s, ls); HotHolds(s', u, s.disk[u])
  {
    ReachableRun(false, s, ls);
    BootFindsDisk(Run(s, ls), id);
    RunContentKept(s, ls, Run(s, ls).actors[id].u);
  }

  /** From there to the launch, in every run, nothing but the edits of this start touches the content. */
  lemma OnlyEditsTouch(s: State, l: Label, id: nat)
    requires Reached(s) && Enabled(s, l) && id in s.actors && (s.actors[id].pc.Edit? || s.actors[id].pc.Launch?)
    requires Touches(s, l, s.actors[id].u)
    ensures l.Go? && l.id == id && l.pick.yes && s.actors[id].pc.Edit?
  {
    ReachedCore(s);
    ActorAt(s, id);
    forall i | i in s.actors && i != id && (s.actors[i].pc.DeleteHot? || s.actors[i].pc.Edit?)
      ensures s.actors[i].u != s.actors[id].u
    {
      CoreLocals(s, i);
      Alone(s, id, i);
    }
  }

  /** The start of this VM is between its first edit and its launch all along. */
  predicate Booting(s: State, ls: seq<Label>, id: nat, u: Uuid)
    requires Executable(s, ls)
    decreases |ls|
  {
    && id in s.actors && s.actors[id].u == u && (s.actors[id].pc.Edit? || s.actors[id].pc.Launch?)
    && (ls != [] ==> Booting(Apply(s, ls[0]), ls[1..], id, u))
  }

  /** What the last of the edits of this start writes, or the content before all of them. */
  function LastEdit(ls: seq<Label>, id: nat, c: Content): Content {
    if ls == [] then c
    else LastEdit(ls[1..], id, if ls[0].Go? && ls[0].id == id && ls[0].pick.yes then ls[0].pick.data else c)
  }

  lemma EditStep(s: State, id: nat, c: Pick)
    requires id in s.actors && s.actors[id].pc.Edit? && c.yes
    ensures GoStep(s, id, c).disk == s.disk[s.actors[id].u := c.data]
  {
    InsideStep(s, id, c);
  }

  lemma LaunchMoves(s: State, id: nat, c: Pick)
    requires id in s.actors && s.actors[id].pc.Launch?
    ensures id in GoStep(s, id, c).actors && GoStep(s, id, c).actors[id].pc.Register?
  {
    LateStep(s, id, c);
  }

  lemma {:induction false} BootRun(s: State, ls: seq<Label>, id: nat, u: Uuid)
    requires Reached(s) && Executable(s, ls) && Booting(s, ls, id, u) && u in s.disk
    ensures u in Run(s, ls).disk && Run(s, ls).disk[u] == LastEdit(ls, id, s.disk[u])
    decreases |ls|
  {
    if ls != [] {
      var l := ls[0];
      if Touches(s, l, u) {
        OnlyEditsTouch(s, l, id);
        EditStep(s, id, l.pick);
      } else {
        ContentKept(s, l, u);
        if l.Go? && l.id == id && s.actors[id].pc.Launch? {
          LaunchMoves(s, id, l.pick);
        }
      }
      ReachedNext(s, l);
      BootRun(Apply(s, l), ls[1..], id, u);
    }
  }

  lemma {:induction false} BootEnds(s: State, ls: seq<Label>, id: nat, u: Uuid)
    requires Executable(s, ls) && Booting(s, ls, id, u)
    ensures Booting(Run(s, ls), [], id, u)
    decreases |ls|
  {
    if ls != [] {
      BootEnds(Apply(s, ls[0]), ls[1..], id, u);
    }
  }

  /** A start launches with the content it came to its edits with, as its own edits have left it. */
  lemma LaunchKeepsEdits(s: State, ls: seq<Label>, id: nat, u: Uuid)
    requires Reachable(false, s) && Executable(s, ls) && CarefulRun(false, s, ls) && Booting(s, ls, id, u)
    ensures u in s.disk && HotHolds(s, u, s.disk[u]) && HotHolds(Run(s, ls), u, LastEdit(ls, id, s.disk[u]))
  {
    BootFindsDisk(s, id);
    ReachableReached(false, s);
    BootRun(s, ls, id, u);
    BootEnds(s, ls, id, u);
    ReachableRun(false, s, ls);
    BootFindsDisk(Run(s, ls), id);
  }

  lemma PrepareKnows(s: State, a: Actor)
    requires Knows(s, a) && a.u in s.disk
    ensures !a.pc.Fill? && (a.pc.Ensure? ==> Hot(a.row.name) in s.fs)
  {
  }

  lemma PreparedBy(s: State, id: nat)
    requires Inv(s) && id in s.actors && (s.actors[id].pc.Ensure? || s.actors[id].pc.Fill?) && s.actors[id].u in s.disk
    ensures s.actors[id].pc.Ensure? && Hot(s.actors[id].row.name) in s.fs
  {
    LocalsAt(s, id);
    HolderKnows(s, id);
    PrepareKnows(s, s.actors[id]);
  }

  lemma EnsureStep(s: State, id: nat, c: Pick)
    requires id in s.actors && s.actors[id].pc.Ensure? && Hot(s.actors[id].row.name) in s.fs && s.actors[id].u in s.disk
    ensures GoStep(s, id, c) == Become(s, id, s.actors[id].(pc := Edit))
  {
    InsideStep(s, id, c);
  }

  /** `ensureDisk` writes a base image only for a VM that has never had a disk. */
  lemma NeverRebased(s: State, id: nat, c: Pick)
    requires Reachable(false, s) && id in s.actors && s.actors[id].u in s.disk
    requires s.actors[id].pc.Ensure? || s.actors[id].pc.Fill?
    ensures GoStep(s, id, c) == Become(s, id, s.actors[id].(pc := Edit))
  {
    ReachableSafe(false, s);
    StartPlain(s, id);
    PlainAt(false, s, id);
    Seen(false, s);
    PreparedBy(Erase(false, s), id);
    EnsureStep(s, id, c);
  }

  lemma SafeProc(tidy: bool, s: State, pid: nat)
    requires Blind(tidy, s) && pid in s.procs
    ensures ProcOk(Erase(tidy, s), pid)
  {
    Seen(tidy, s);
  }

  /** A running guest sees exactly the VM's content, whether it was booted or resumed. */
  lemma GuestSeesContent(s: State, pid: nat)
    requires Reachable(false, s) && pid in s.procs && s.procs[pid].attached
    ensures var p := s.procs[pid];
      p.u in s.disk && Hot(p.name) in s.fs && s.fs[Hot(p.name)] == s.disk[p.u] && Resolves(s, p.u, s.disk[p.u])
  {
    ReachableSafe(false, s);
    SafeProc(false, s, pid);
    SafeDisk(false, s, s.procs[pid].u);
  }

  // ---------------------------------------------------------------- processes

  /** The live process's name is not the one the operation works under. */
  lemma NotMine(s: State, a: Actor, pid: nat)
    requires pid in s.procs && ProcOk(s, pid) && RowOk(s, a.u, a.row) && Quiet(s, a.u)
    ensures s.procs[pid].name != a.row.name
  {
  }

  lemma ContainedSpares(s: State, a: Actor, e: Effect, pid: nat, p: Path)
    requires Contained(s, a, e) && RowOk(s, a.u, a.row)
    requires pid in s.procs && ProcOk(s, pid) && Under(p, s.procs[pid].name)
    ensures FsSame(s.fs, OnFiles(s.fs, e.file), p)
  {
    if Quiet(s, a.u) {
      NotMine(s, a, pid);
      OwnFileFrame(s.fs, e.file, a, Open(a, e), p);
    }
  }

  lemma InsideContained(s: State, id: nat, c: Pick)
    requires Inv(s) && id in s.actors && Inside(s.actors[id].pc) && GoEnabled(s, s.actors[id], c)
    ensures Contained(s, s.actors[id], EffectOf(s, s.actors[id], c)) && RowOk(s, s.actors[id].u, s.actors[id].row)
  {
    var a := s.actors[id];
    LocalsAt(s, id);
    InsideHeld(a);
    HolderInformed(s, id);
    assert Knows(s, a) && RowOk(s, a.u, a.row);
    InformedFine(s, a, c);
    assert InsideSteps.Good(s, a, EffectOf(s, a, c));
  }

  lemma PlainSpares(s: State, id: nat, c: Pick, pid: nat, p: Path)
    requires Blind(false, s) && id in s.actors && Plain(false, s, s.actors[id]) && Inside(s.actors[id].pc)
    requires GoEnabled(s, s.actors[id], c) && pid in s.procs && Under(p, s.procs[pid].name)
    ensures FsSame(s.fs, GoStep(s, id, c).fs, p)
  {
    var e := Erase(false, s);
    Seen(false, s);
    PlainAt(false, s, id);
    SameEnabled(false, s, s.actors[id], c);
    InsideContained(e, id, c);
    SafeProc(false, s, pid);
    ContainedSpares(e, s.actors[id], EffectOf(e, s.actors[id], c), pid, p);
    SameEffect(false, s, s.actors[id], c);
    InsideStep(s, id, c);
  }

  lemma SaveSpares(s: State, id: nat, c: Pick, p: Path)
    requires id in s.actors && IsSave(s.actors[id]) && KindOk(s.actors[id]) && Inside(s.actors[id].pc) && !p.Snap?
    ensures FsSame(s.fs, GoStep(s, id, c).fs, p)
  {
    SavePcs(s.actors[id]);
    SaveEffect(s, s.actors[id], c);
    InsideStep(s, id, c);
  }

  lemma InsideSpares(s: State, id: nat, c: Pick, pid: nat, p: Path)
    requires Safe(false, s) && id in s.actors && Inside(s.actors[id].pc) && GoEnabled(s, s.actors[id], c)
    requires pid in s.procs && Under(p, s.procs[pid].name)
    ensures FsSame(s.fs, GoStep(s, id, c).fs, p)
  {
    assert ShapeOk(s.cfg, s.actors[id]);
    if IsSave(s.actors[id]) {
      SaveSpares(s, id, c, p);
    } else if Parked(s, s.actors[id]) {
      ParkedStep(s, id, c);
    } else {
      PlainSpares(s, id, c, pid, p);
    }
  }

  lemma OutsideFiles(s: State, id: nat, c: Pick)
    requires id in s.actors && !Inside(s.actors[id].pc)
    ensures GoStep(s, id, c).fs == s.fs
  {
    var pc := s.actors[id].pc;
    if pc.Begin? || pc.Wait? || pc.Read? || pc.SnapExists? || pc.End? {
      TableStepOnly(s, id, c);
    } else {
      LateFiles(s, id, c);
    }
  }

  lemma LateFiles(s: State, id: nat, c: Pick)
    requires id in s.actors
    requires Late(s.actors[id].pc)
    ensures GoStep(s, id, c).fs == s.fs
  {
    LateStep(s, id, c);
  }

  lemma EnvFiles(s: State, l: Label)
    requires Enabled(s, l) && !l.Go? && !l.GuestWrite? && !l.Create?
    ensures Apply(s, l).fs == s.fs
  {
    match l
    case Spawn(_, _, _) =>
    case Fail(_) =>
    case Exit(_) =>
    case Reap(_) =>
    case SetState(_, _) =>
    case Crash =>
  }

  lemma CreateSpares(s: State, u: Uuid, name: string, image: Option<Content>, pid: nat, p: Path)
    requires Safe(false, s) && Enabled(s, Create(u, name, image)) && pid in s.procs && Under(p, s.procs[pid].name)
    ensures FsSame(s.fs, CreateStep(s, u, name, image).fs, p)
  {
    SafeProc(false, s, pid);
  }

  lemma GoSpares(s: State, id: nat, c: Pick, pid: nat, p: Path)
    requires Safe(false, s) && id in s.actors && GoEnabled(s, s.actors[id], c)
    requires pid in s.procs && Under(p, s.procs[pid].name)
    ensures FsSame(s.fs, GoStep(s, id, c).fs, p)
  {
    if Inside(s.actors[id].pc) {
      InsideSpares(s, id, c, pid, p);
    } else {
      OutsideFiles(s, id, c);
    }
  }

  /** Two processes with one name are one process. */
  lemma OneName(s: State, p: nat, q: nat)
    requires Safe(false, s) && p in s.procs && q in s.procs && s.procs[p].name == s.procs[q].name
    ensures p == q
  {
    SafeProc(false, s, p);
    SafeProc(false, s, q);
    Seen(false, s);
    assert s.procs[p].u == s.procs[q].u;
    OneTended(s, p, q);
  }

  lemma GuestSpares(s: State, q: nat, data: Content, pid: nat, p: Path)
    requires Safe(false, s) && q in s.procs && pid in s.procs && q != pid && Under(p, s.procs[pid].name)
    ensures FsSame(s.fs, GuestWriteStep(s, q, data).fs, p)
  {
    if s.procs[q].name == s.procs[pid].name {
      OneName(s, q, pid);
    }
  }

  /**
  While a VM's process is live, nothing but its own guest changes a file of that VM:
  no archive, hydration, directory removal, disk preparation, creation or other guest.
  */
  lemma LiveDiskUntouched(s: State, l: Label, pid: nat, p: Path)
    requires Reachable(false, s) && Enabled(s, l) && !(l.GuestWrite? && l.pid == pid)
    requires pid in s.procs && Under(p, s.procs[pid].name)
    ensures FsSame(s.fs, Apply(s, l).fs, p)
  {
    ReachableSafe(false, s);
    if l.Go? {
      GoSpares(s, l.id, l.pick, pid, p);
    } else if l.GuestWrite? {
      GuestSpares(s, l.pid, l.data, pid, p);
    } else if l.Create? {
      CreateSpares(s, l.u, l.name, l.image, pid, p);
    } else {
      EnvFiles(s, l);
    }
  }

  /** A disk is being copied, moved or removed. */
  predicate Copying(pc: Pc) {
    || pc.HydrateCopy? || pc.HydrateRename? || pc.ArchiveCopy? || pc.ArchiveDropOld? || pc.ArchiveRename? || pc.ArchiveDropHot?
    || pc.SnapOpen? || pc.SnapCopy? || pc.SnapCommit? || pc.DeleteHot? || pc.DeleteRecorded? || pc.DeleteCold? || pc.DeleteRow?
  }

  lemma CopyingStill(a: Actor)
    requires Copying(a.pc)
    ensures Still(a)
  {
  }

  /** In every run, while a disk is copied, moved or removed, its VM has no process. */
  lemma CopiesOnlyWhenStopped(s: State, id: nat, pid: nat)
    requires Reached(s) && id in s.actors && Copying(s.actors[id].pc) && pid in s.procs
    ensures s.procs[pid].u != s.actors[id].u && s.actors[id].u !in s.t.running
  {
    ReachedCore(s);
    ActorAt(s, id);
    CopyingStill(s.actors[id]);
  }

  lemma CopyingQuiet(s: State, a: Actor)
    requires PcOk(s, a) && Copying(a.pc)
    ensures a.hasRow && RowOk(s, a.u, a.row) && Quiet(s, a.u)
  {
  }

  /** In careful runs, neither has any other VM with that name; a delete or save whose VM is gone may be out of date. */
  lemma NoNamesakeRuns(tidy: bool, s: State, id: nat, pid: nat)
    requires Reachable(tidy, s) && id in s.actors && Copying(s.actors[id].pc) && pid in s.procs
    requires Plain(tidy, s, s.actors[id])
    ensures s.procs[pid].name != s.actors[id].row.name
  {
    ReachableSafe(tidy, s);
    PlainPc(tidy, s, id);
    CopyingQuiet(Erase(tidy, s), s.actors[id]);
    SafeProc(tidy, s, pid);
    NotMine(Erase(tidy, s), s.actors[id], pid);
  }

  // ---------------------------------------------------------------- snapshots

  /** A snapshot that was saved holds exactly the content its VM had when it was recorded. */
  lemma SnapshotExact(s: State, sn: string)
    requires Reachable(true, s) && sn in s.snaps && s.snaps[sn].logical.Some?
    ensures Snap(sn) in s.fs && s.fs[Snap(sn)] == s.snaps[sn].logical.value
  {
    ReachableSafe(true, s);
    Seen(true, s);
  }

  lemma CommitKnows(s: State, id: nat)
    requires Safe(true, s) && id in s.actors && s.actors[id].pc.SnapCommit? && s.actors[id].u in s.disk
    ensures var a := s.actors[id];
      Snap(a.sn) in s.fs && s.fs[Snap(a.sn)] == s.disk[a.u] && Resolves(s, a.u, s.disk[a.u])
  {
    assert ShapeOk(s.cfg, s.actors[id]);
    SafeDisk(true, s, s.actors[id].u);
    PlainPc(true, s, id);
    LaunchSteps.SnapCommitKnows(Erase(true, s), s.actors[id]);
  }

  /** A save that succeeds has copied the VM's present content, however old the row it read. */
  lemma SaveRecordsContent(s: State, id: nat, c: Pick)
    requires Reachable(true, s) && Enabled(s, Go(id, c)) && s.actors[id].pc.SnapCommit?
    ensures var a, s' := s.actors[id], Apply(s, Go(id, c));
      && s'.snaps == s.snaps[a.sn := Saved(a.u, Look(s'.disk, a.u))]
      && (a.u in s'.disk ==> Snap(a.sn) in s'.fs && s'.fs[Snap(a.sn)] == s'.disk[a.u] && Resolves(s', a.u, s'.disk[a.u]))
  {
    ReachableSafe(true, s);
    LateStep(s, id, c);
    if s.actors[id].u in s.disk {
      CommitKnows(s, id);
    }
  }

  lemma GoSnaps(s: State, id: nat, c: Pick, sn: string)
    requires id in s.actors && GoEnabled(s, s.actors[id], c) && sn in s.snaps
    ensures sn in GoStep(s, id, c).snaps && GoStep(s, id, c).snaps[sn] == s.snaps[sn]
  {
    var pc := s.actors[id].pc;
    if Inside(pc) {
      InsideStep(s, id, c);
    } else if pc.Begin? || pc.Wait? || pc.Read? || pc.SnapExists? || pc.End? {
      TableStepOnly(s, id, c);
    } else {
      LateStep(s, id, c);
    }
  }

  lemma StepSnaps(s: State, l: Label, sn: string)
    requires Enabled(s, l) && sn in s.snaps
    ensures sn in Apply(s, l).snaps && Apply(s, l).snaps[sn] == s.snaps[sn]
  {
    if l.Go? {
      GoSnaps(s, l.id, l.pick, sn);
    }
  }

  lemma {:induction false} RunSnaps(s: State, ls: seq<Label>, sn: string)
    requires Executable(s, ls) && sn in s.snaps
    ensures sn in Run(s, ls).snaps && Run(s, ls).snaps[sn] == s.snaps[sn]
    decreases |ls|
  {
    if ls != [] {
      StepSnaps(s, ls[0], sn);
      RunSnaps(Apply(s, ls[0]), ls[1..], sn);
    }
  }

  /** No later step, by whatever operation, alters a snapshot. */
  lemma SnapshotSurvives(s: State, ls: seq<Label>, sn: string)
    requires Reachable(true, s) && Executable(s, ls) && CarefulRun(true, s, ls) && sn in s.snaps
    requires s.snaps[sn].logical.Some?
    ensures Snap(sn) in s.fs && FsSame(s.fs, Run(s, ls).fs, Snap(sn))
  {
    RunSnaps(s, ls, sn);
    ReachableRun(true, s, ls);
    SnapshotExact(s, sn);
    SnapshotExact(Run(s, ls), sn);
  }

  // ---------------------------------------------------------------- deletes

  /** No copy at the hot, recorded or default cold path, and no temporary one. */
  predicate NothingLeft(cfg: Config, fs: Files, row: Row) {
    && HotGone(fs, row.name)
    && (cfg.coldOn ==> AllGone(fs, row.name))
    && (row.archived.Some? ==> row.archived.value !in fs)
  }

  lemma DeleteRowKnows(s: State, a: Actor)
    requires PcOk(s, a) && a.pc.DeleteRow? && Rows(s) && a.u in s.rows
    ensures NothingLeft(s.cfg, s.fs, s.rows[a.u]) && a.u !in s.disk
  {
    assert RowShape(s.cfg, s.rows[a.u]);
  }

  lemma DeleteRowDone(s: State, id: nat)
    requires Inv(s) && id in s.actors && s.actors[id].pc.DeleteRow? && s.actors[id].u in s.rows
    ensures NothingLeft(s.cfg, s.fs, s.rows[s.actors[id].u]) && s.actors[id].u !in s.disk
  {
    PcAt(s, id);
    DeleteRowKnows(s, s.actors[id]);
  }

  lemma DeleteRowApplied(s: State, id: nat, c: Pick)
    requires Enabled(s, Go(id, c)) && s.actors[id].pc.DeleteRow?
    ensures var u, s' := s.actors[id].u, Apply(s, Go(id, c));
      u in s.rows && u !in s'.rows && s'.disk == s.disk && s'.fs == s.fs
  {
    LateStep(s, id, c);
  }

  /** A delete that succeeds leaves no copy of the disk anywhere, whatever moved it meanwhile. */
  lemma DeleteLeavesNothing(s: State, id: nat, c: Pick)
    requires Reachable(false, s) && Enabled(s, Go(id, c)) && s.actors[id].pc.DeleteRow?
    ensures var u, s' := s.actors[id].u, Apply(s, Go(id, c));
      u in s.rows && u !in s'.rows && u !in s'.disk && NothingLeft(s.cfg, s'.fs, s.rows[u])
  {
    DeleteRowApplied(s, id, c);
    ReachableSafe(false, s);
    assert ShapeOk(s.cfg, s.actors[id]);
    PlainAt(false, s, id);
    Seen(false, s);
    DeleteRowDone(Erase(false, s), id);
  }
}
