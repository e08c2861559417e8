/** The token, the archive-cancelling handshake and the processes, over every state and step of every run. */
module Handshake {
  import opened Options
  import opened OpTable
  import opened World
  import opened Invariant
  import opened Safety
  import opened Guarantees
  import opened EveryRun

  /** A recorded archive is at work, holds its VM's token, and its `done` is still open. */
  lemma ArchiveHoldsToken(s: State, u: Uuid)
    requires Reached(s) && u in s.t.archives
    ensures var id := s.t.archives[u].id;
      && u in s.t.owner && s.t.owner[u] == id && id !in s.t.closed
      && id in s.actors && IsArchive(s.actors[id]) && s.actors[id].u == u
  {
    ReachedCore(s);
  }

  /** What a step of the operation `id` may do to a token. */
  predicate OwnerStep(s: State, s': State, id: nat, u: Uuid) {
    u in s.t.owner ==>
      || (u in s'.t.owner && s'.t.owner[u] == s.t.owner[u])
      || (id in s.actors && s.actors[id].pc.End? && s.actors[id].u == u)
  }

  lemma AfterBeginTable(s: State, id: nat, a: Actor, b: Begun)
    ensures AfterBegin(s, id, a, b).t == if b.outcome == Busy then s.t else b.t
  {
    match b.outcome
    case Busy =>
    case WaitFor(_) =>
    case Granted =>
  }

  /** A begin takes no token that is held, and closes no channel. */
  lemma TryBeginTable(t: Table, a: Actor, id: nat)
    ensures var t' := TryBegin(t, a, id).t;
      t'.closed == t.closed && forall u :: u in t.owner ==> u in t'.owner && t'.owner[u] == t.owner[u]
  {
  }

  lemma BeginOwner(s: State, id: nat, a: Actor)
    ensures var t' := BeginStep(s, id, a).t;
      t'.closed == s.t.closed && forall u :: u in s.t.owner ==> u in t'.owner && t'.owner[u] == s.t.owner[u]
  {
    AfterBeginTable(s, id, a, TryBegin(s.t, a, id));
    TryBeginTable(s.t, a, id);
  }

  lemma TableOwner(s: State, id: nat, c: Pick, u: Uuid)
    requires id in s.actors
    requires var pc := s.actors[id].pc; pc.Begin? || pc.Wait? || pc.Read? || pc.SnapExists? || pc.End?
    ensures OwnerStep(s, GoStep(s, id, c), id, u)
  {
    match s.actors[id].pc
    case Begin => BeginOwner(s, id, s.actors[id]);
    case _ =>
  }

  lemma GoOwner(s: State, id: nat, c: Pick, u: Uuid)
    requires id in s.actors
    ensures OwnerStep(s, GoStep(s, id, c), id, u)
  {
    var pc := s.actors[id].pc;
    if Inside(pc) {
      InsideStep(s, id, c);
    } else if pc.Begin? || pc.Wait? || pc.Read? || pc.SnapExists? || pc.End? {
      TableOwner(s, id, c, u);
    } else {
      LateStep(s, id, c);
    }
  }

  lemma EnvOwner(s: State, l: Label, u: Uuid)
    requires Enabled(s, l) && u in s.t.owner && !l.Go? && !l.Crash?
    ensures u in Apply(s, l).t.owner && Apply(s, l).t.owner[u] == s.t.owner[u]
  {
    match l
    case Spawn(_, _, _) =>
    case Fail(_) =>
    case Exit(_) =>
    case GuestWrite(_, _) =>
    case Reap(_) =>
    case SetState(_, _) =>
    case Create(_, _, _) =>
  }

  lemma HolderAt(s: State, id: nat)
    requires Core(s) && id in s.actors && s.actors[id].pc.End?
    ensures s.actors[id].u in s.t.owner && s.t.owner[s.actors[id].u] == id
  {
    CoreLocals(s, id);
  }

  lemma GoReleases(s: State, id: nat, c: Pick, u: Uuid)
    requires Core(s) && id in s.actors && u in s.t.owner
    requires u !in GoStep(s, id, c).t.owner || GoStep(s, id, c).t.owner[u] != s.t.owner[u]
    ensures id == s.t.owner[u] && s.actors[id].pc.End?
  {
    GoOwner(s, id, c, u);
    HolderAt(s, id);
  }

  /** A token is released, or handed to another operation, only by the last step of its holder. */
  lemma OnlyHolderReleases(s: State, l: Label, u: Uuid)
    requires Reached(s) && Enabled(s, l) && u in s.t.owner
    requires u !in Apply(s, l).t.owner || Apply(s, l).t.owner[u] != s.t.owner[u]
    ensures l.Crash? || (l.Go? && l.id == s.t.owner[u] && s.actors[l.id].pc.End?)
  {
    ReachedCore(s);
    if l.Go? {
      GoReleases(s, l.id, l.pick, u);
    } else if !l.Crash? {
      EnvOwner(s, l, u);
    }
  }

  // ---------------------------------------------------------------- the `done` channel

  lemma EarlyClosed(s: State, id: nat, c: Pick)
    requires id in s.actors
    requires var pc := s.actors[id].pc; pc.Begin? || pc.Wait? || pc.Read? || pc.SnapExists? || pc.End?
    ensures GoStep(s, id, c).t.closed ==
      if s.actors[id].pc.End? && s.actors[id].kind == ArchiveStoppedVM then s.t.closed + {id} else s.t.closed
  {
    EarlyStep(s, id, c);
    match s.actors[id].pc
    case Begin => BeginOwner(s, id, s.actors[id]);
    case Wait =>
    case Read =>
    case SnapExists =>
    case End =>
  }

  lemma GoClosed(s: State, id: nat, c: Pick)
    requires id in s.actors
    ensures GoStep(s, id, c).t.closed ==
      if s.actors[id].pc.End? && s.actors[id].kind == ArchiveStoppedVM then s.t.closed + {id} else s.t.closed
  {
    var pc := s.actors[id].pc;
    if Inside(pc) {
      InsideStep(s, id, c);
    } else if pc.Begin? || pc.Wait? || pc.Read? || pc.SnapExists? || pc.End? {
      EarlyClosed(s, id, c);
    } else {
      LateStep(s, id, c);
    }
  }

  lemma EnvClosed(s: State, l: Label)
    requires Enabled(s, l) && !l.Go?
    ensures Apply(s, l).t.closed == if l.Crash? then {} else s.t.closed
  {
    match l
    case Spawn(_, _, _) =>
    case Fail(_) =>
    case Exit(_) =>
    case GuestWrite(_, _) =>
    case Reap(_) =>
    case SetState(_, _) =>
    case Create(_, _, _) =>
    case Crash =>
  }

  /** The step has cleared the archive's token and its record, and ended it. */
  predicate Released(s: State, s': State, id: nat)
    requires id in s.actors
  {
    var u := s.actors[id].u;
    && u in s.t.archives && s.t.archives[u].id == id
    && u !in s'.t.owner && u !in s'.t.archives && id !in s'.actors
  }

  lemma EndStepTable(s: State, id: nat, c: Pick)
    requires Core(s) && id in s.actors && s.actors[id].pc.End? && IsArchive(s.actors[id])
    ensures id !in s.t.closed && id in GoStep(s, id, c).t.closed && Released(s, GoStep(s, id, c), id)
  {
  }

  lemma GoCloses(s: State, i: nat, c: Pick, id: nat)
    requires i in s.actors && id !in s.t.closed && id in GoStep(s, i, c).t.closed
    ensures i == id && s.actors[i].pc.End? && s.actors[i].kind == ArchiveStoppedVM
  {
    GoClosed(s, i, c);
  }

  lemma GoDone(s: State, i: nat, c: Pick, id: nat)
    requires Core(s) && i in s.actors && id !in s.t.closed && id in GoStep(s, i, c).t.closed
    ensures i == id && IsArchive(s.actors[id]) && s.actors[id].pc.End? && Released(s, GoStep(s, i, c), id)
  {
    GoCloses(s, i, c, id);
    CoreLocals(s, i);
    EndStepTable(s, i, c);
  }

  /**
  An archive's `done` is closed only by that archive's last step, never twice, and in the
  critical section that clears both its entries.
  */
  lemma DoneClosedOnce(s: State, l: Label, id: nat)
    requires Reached(s) && Enabled(s, l) && id !in s.t.closed && id in Apply(s, l).t.closed
    ensures l.Go? && l.id == id && IsArchive(s.actors[id]) && s.actors[id].pc.End?
    ensures Released(s, Apply(s, l), id)
  {
    ReachedCore(s);
    if l.Go? {
      GoDone(s, l.id, l.pick, id);
    } else {
      EnvClosed(s, l);
    }
  }

  /** The last step of an archive always finds its `done` open and closes it. */
  lemma LastStepCloses(s: State, id: nat, c: Pick)
    requires Reached(s) && id in s.actors && IsArchive(s.actors[id]) && s.actors[id].pc.End?
    ensures id !in s.t.closed && id in GoStep(s, id, c).t.closed
  {
    ReachedCore(s);
    EndStepTable(s, id, c);
  }

  /** A closed `done` stays closed until the daemon dies, and no operation takes its identity. */
  lemma StaysClosed(s: State, l: Label, id: nat)
    requires Reached(s) && Enabled(s, l) && id in s.t.closed
    ensures l.Crash? || id in Apply(s, l).t.closed
    ensures id !in s.actors
  {
    ReachedCore(s);
    if l.Go? {
      GoClosed(s, l.id, l.pick);
    } else {
      EnvClosed(s, l);
    }
  }

  /** An operation that waits has been woken, or the archive it waits for is still at work. */
  lemma NoLostWakeup(s: State, id: nat, c: Pick)
    requires Reached(s) && id in s.actors && s.actors[id].pc.Wait?
    ensures var a := s.actors[id];
      || GoEnabled(s, a, c)
      || (a.arch in s.actors && IsArchive(s.actors[a.arch]) && s.actors[a.arch].u == a.u && a.arch !in s.t.closed)
  {
    ReachedCore(s);
    ActorAt(s, id);
  }

  // ---------------------------------------------------------------- begins

  /** Whoever holds a token holds it alone; a recorded archive can only be its own. */
  lemma SoleHolder(s: State, id: nat)
    requires Reached(s) && id in s.actors && s.actors[id].held
    ensures var u := s.actors[id].u;
      && u in s.t.owner && s.t.owner[u] == id
      && (forall j :: j in s.actors && s.actors[j].held && s.actors[j].u == u ==> j == id)
      && (u in s.t.archives ==> s.t.archives[u].id == id && s.actors[id].kind == ArchiveStoppedVM)
  {
    ReachedCore(s);
  }

  lemma AfterBeginHeld(s: State, id: nat, a: Actor, b: Begun)
    ensures b.outcome == Busy ==> id !in AfterBegin(s, id, a, b).actors
    ensures b.outcome.WaitFor? ==>
      id in AfterBegin(s, id, a, b).actors && AfterBegin(s, id, a, b).actors[id].held == a.held
  {
    match b.outcome
    case Busy =>
    case WaitFor(_) =>
    case Granted =>
  }

  lemma GrantedFree(t: Table, a: Actor, id: nat)
    requires TryBegin(t, a, id).outcome == Granted
    ensures a.u !in t.owner && (a.kind != ArchiveStoppedVM ==> a.u !in t.archives)
    ensures (a.kind == StartVM ==> a.u !in t.running)
  {
  }

  lemma BeginGrants(s: State, id: nat, c: Pick)
    requires Reached(s) && id in s.actors && s.actors[id].pc.Begin?
    requires id in GoStep(s, id, c).actors && GoStep(s, id, c).actors[id].held
    ensures GoStep(s, id, c).actors[id].u == s.actors[id].u
    ensures var u := s.actors[id].u;
      u !in s.t.owner && u !in s.t.archives && (s.actors[id].kind == StartVM ==> u !in s.t.running)
  {
    var a := s.actors[id];
    ReachedCore(s);
    CoreLocals(s, id);
    AfterBeginHeld(s, id, a, TryBegin(s.t, a, id));
    GrantedFree(s.t, a, id);
    if a.u in s.t.archives {
      ArchiveHoldsToken(s, a.u);
    }
  }

  /** A begin that succeeds found no holder and no archive in flight, and leaves its caller sole holder. */
  lemma BeginExclusive(s: State, id: nat, c: Pick)
    requires Reached(s) && Enabled(s, Go(id, c)) && s.actors[id].pc.Begin?
    requires var s' := Apply(s, Go(id, c)); id in s'.actors && s'.actors[id].held
    ensures var u := s.actors[id].u;
      u !in s.t.owner && u !in s.t.archives && (s.actors[id].kind == StartVM ==> u !in s.t.running)
    ensures var u, s' := s.actors[id].u, Apply(s, Go(id, c));
      && s'.actors[id].u == u && u in s'.t.owner && s'.t.owner[u] == id
      && forall j :: j in s'.actors && s'.actors[j].held && s'.actors[j].u == u ==> j == id
  {
    BeginGrants(s, id, c);
    ReachedNext(s, Go(id, c));
    SoleHolder(Apply(s, Go(id, c)), id);
  }

  // ---------------------------------------------------------------- the critical sections

  /** The VM of each reaper. */
  function ReaperVms(s: State): map<nat, Uuid> {
    map pid | pid in s.reapers :: s.reapers[pid].u
  }

  /** What the critical sections require of their callers holds wherever the operations call them. */
  lemma CallersMeetLocks(s: State, id: nat)
    requires Reached(s) && id in s.actors
    ensures TableOk(s.t) && ReapersOk(s.t.running, ReaperVms(s)) && id !in s.t.closed
    ensures var a := s.actors[id];
      a.pc.End? ==>
        && a.u in s.t.owner && s.t.owner[a.u] == id && (a.u in s.t.archives <==> a.kind == ArchiveStoppedVM)
        && forall v :: v in s.t.owner && s.t.owner[v] == id ==> v == a.u
    ensures var a := s.actors[id];
      a.pc.Register? ==> a.u in s.t.owner && a.u !in s.t.running && a.pid !in s.reapers
  {
    ReachedCore(s);
    ActorAt(s, id);
  }

  // ---------------------------------------------------------------- processes

  /** At most one live process per VM. */
  lemma OneProcess(s: State, p: nat, q: nat)
    requires Reached(s) && p in s.procs && q in s.procs && s.procs[p].u == s.procs[q].u
    ensures p == q
  {
    ReachedCore(s);
    OneTended(s, p, q);
  }

  /** When a reaper's process has exited, no other process of its VM is live. */
  lemma NoneLeft(s: State, pid: nat, p: nat)
    requires Core(s) && pid in s.reapers && pid !in s.procs && p in s.procs
    ensures s.procs[p].u != s.reapers[pid].u
  {
    var u := s.procs[p].u;
    assert Tended(s, p);
    if u in s.t.owner && s.t.owner[u] in s.actors && s.actors[s.t.owner[u]].pc.Register? {
      RegisterKnows(s, s.t.owner[u]);
    }
  }

  /** The reaper's delete removes the entry that its own launch made, and no other. */
  lemma ReaperDropsOwnEntry(s: State, pid: nat)
    requires Reached(s) && Enabled(s, Reap(pid)) && s.reapers[pid].exited
    ensures var u, s' := s.reapers[pid].u, Apply(s, Reap(pid));
      && u in s.t.running && s.t.running[u] == pid && s'.t.running == s.t.running - {u}
      && forall p :: p in s.procs ==> s.procs[p].u != u
  {
    ReachedCore(s);
    forall p | p in s.procs ensures s.procs[p].u != s.reapers[pid].u {
      NoneLeft(s, pid, p);
    }
  }
}
