/**
What every run of the VM manager keeps, whatever its callers do: who holds which token,
which archives are recorded, which process has which reaper. None of it looks at rows or
files, so no condition on VM names or snapshot names is needed.
*/
module EveryRun {
  import opened Options
  import opened OpTable
  import opened World
  import opened Invariant
  import opened Safety
  import EnvSteps
  import LaunchSteps
  import TableSteps

  ghost predicate ActorOk(s: State, a: Actor) {
    && LocalsOk(a)
    && (a.pc.Wait? ==> WaitOk(s, a.u, a.arch))
    && LaunchOk(s, a)
    && (Still(a) ==> Quiet(s, a.u))
  }

  ghost predicate ActorsOk(s: State) {
    forall id :: id in s.actors ==> ActorOk(s, s.actors[id])
  }

  predicate Twins(a: Actor, b: Actor) {
    a.pc.Register? && b.pc.Register? && a.pid == b.pid
  }

  /** No two operations are about to register one process. */
  ghost predicate Pids(s: State) {
    forall i, j :: i in s.actors && j in s.actors && Twins(s.actors[i], s.actors[j]) ==> i == j
  }

  ghost predicate AllTended(s: State) {
    forall pid :: pid in s.procs ==> Tended(s, pid)
  }

  ghost predicate Core(s: State) {
    && Tokens(s) && Ids(s) && Reapers(s) && Pids(s) && AllTended(s) && ActorsOk(s)
  }

  /** The invariant, as one fact: the solver does not look inside until it is asked to. */
  ghost predicate Sound(s: State) {
    forall x :: x == s ==> Core(x)
  }

  lemma ActorAt(s: State, id: nat)
    requires ActorsOk(s) && id in s.actors
    ensures ActorOk(s, s.actors[id])
  {
  }

  lemma CoreLocals(s: State, id: nat)
    requires ActorsOk(s) && id in s.actors
    ensures LocalsOk(s.actors[id])
  {
    ActorAt(s, id);
  }

  // ---------------------------------------------------------------- steps that move one operation

  /** Tables, processes and counters are the same. */
  predicate SameHost(s: State, s': State) {
    s'.t == s.t && s'.procs == s.procs && s'.reapers == s.reapers && s'.nextId == s.nextId && s'.nextPid == s.nextPid
  }

  ghost predicate Moved(s: State, s': State, id: nat) {
    && id in s.actors && id in s'.actors && SameHost(s, s') && s'.actors == s.actors[id := s'.actors[id]]
    && Onward(s.actors[id], s'.actors[id])
    && (Unsure(s.actors[id].pc) && Still(s'.actors[id]) ==> Quiet(s, s.actors[id].u))
  }

  lemma MovedTokens(s: State, s': State, id: nat)
    requires Moved(s, s', id) && Tokens(s)
    ensures Tokens(s')
  {
  }

  lemma MovedIds(s: State, s': State, id: nat)
    requires Moved(s, s', id) && Ids(s) && Reapers(s) && Pids(s)
    ensures Ids(s') && Reapers(s') && Pids(s')
  {
  }

  lemma MovedTended(s: State, s': State, id: nat)
    requires Moved(s, s', id) && AllTended(s)
    ensures AllTended(s')
  {
    forall pid | pid in s'.procs ensures Tended(s', pid) {
      assert Tended(s, pid);
    }
  }

  lemma MovedActors(s: State, s': State, id: nat)
    requires Moved(s, s', id) && ActorsOk(s)
    ensures ActorsOk(s')
  {
    forall i | i in s'.actors ensures ActorOk(s', s'.actors[i]) {
      ActorAt(s, i);
      assert Quiet(s', s'.actors[i].u) == Quiet(s, s'.actors[i].u);
    }
  }

  lemma MovedKeeps(s: State, s': State, id: nat)
    requires Core(s) && Moved(s, s', id)
    ensures Core(s')
  {
    MovedTokens(s, s', id);
    MovedIds(s, s', id);
    MovedTended(s, s', id);
    MovedActors(s, s', id);
  }

  /** A VM without a registered process, whose holder is not about to register one, has none at all. */
  lemma HolderQuiet(s: State, id: nat)
    requires Core(s) && id in s.actors && s.actors[id].held && !s.actors[id].pc.Register?
    requires s.actors[id].u !in s.t.running
    ensures Quiet(s, s.actors[id].u)
  {
    forall pid | pid in s.procs ensures s.procs[pid].u != s.actors[id].u {
      assert Tended(s, pid);
    }
  }

  lemma CheckSees(s: State, a: Actor, c: Pick)
    requires Unsure(a.pc) && GoEnabled(s, a, c) && a.u in s.t.running
    ensures !Still(EffectOf(s, a, c).a)
  {
  }

  lemma InsideSound(s: State, id: nat, c: Pick)
    requires Core(s) && id in s.actors && Inside(s.actors[id].pc) && GoEnabled(s, s.actors[id], c)
    ensures Core(GoStep(s, id, c))
  {
    CoreLocals(s, id);
    InsideHeld(s.actors[id]);
    if Unsure(s.actors[id].pc) {
      if s.actors[id].u in s.t.running {
        CheckSees(s, s.actors[id], c);
      } else {
        HolderQuiet(s, id);
      }
    }
    InsideOnward(s, s.actors[id], c);
    InsideStep(s, id, c);
    MovedKeeps(s, GoStep(s, id, c), id);
  }

  lemma LeaveTended(s: State, s': State, id: nat)
    requires AllTended(s) && id in s.actors && !s.actors[id].pc.Register?
    requires s'.procs == s.procs && s'.reapers == s.reapers && s'.actors == s.actors - {id}
    requires forall u :: u in s.t.owner && s.t.owner[u] != id ==> u in s'.t.owner && s'.t.owner[u] == s.t.owner[u]
    ensures AllTended(s')
  {
    forall pid | pid in s'.procs ensures Tended(s', pid) {
      assert Tended(s, pid);
    }
  }

  lemma LeaveActors(s: State, s': State, id: nat)
    requires ActorsOk(s) && TableSteps.Left(s, s', id) && (IsArchive(s.actors[id]) ==> id in s'.t.closed)
    ensures ActorsOk(s')
  {
    forall i | i in s'.actors ensures ActorOk(s', s'.actors[i]) {
      ActorAt(s, i);
      assert Quiet(s', s'.actors[i].u) == Quiet(s, s'.actors[i].u);
    }
  }

  lemma LeaveSound(s: State, id: nat)
    requires Core(s) && id in s.actors && !s.actors[id].held && !s.actors[id].pc.Register?
    ensures Core(Leave(s, id))
  {
    TableSteps.LeaveTokens(s, id);
    LeaveTended(s, Leave(s, id), id);
    LeaveActors(s, Leave(s, id), id);
  }

  lemma EndSound(s: State, id: nat)
    requires Core(s) && id in s.actors && s.actors[id].pc.End?
    ensures Core(EndStep(s, id, s.actors[id]))
  {
    CoreLocals(s, id);
    TableSteps.EndTokens(s, id);
    LeaveTended(s, EndStep(s, id, s.actors[id]), id);
    LeaveActors(s, EndStep(s, id, s.actors[id]), id);
  }

  lemma FailSound(s: State, id: nat)
    requires Core(s) && Enabled(s, Fail(id))
    ensures Core(Apply(s, Fail(id)))
  {
    CoreLocals(s, id);
    if s.actors[id].held {
      FailOnward(s.actors[id]);
      MovedKeeps(s, Become(s, id, FailTo(s.actors[id])), id);
    } else {
      LeaveSound(s, id);
    }
  }

  // ---------------------------------------------------------------- taking the token

  /** One operation changes and the table only in who holds which token and which archives are recorded. */
  lemma SwapActors(s: State, s': State, id: nat)
    requires TableSteps.SameBut(s, s', id) && ActorsOk(s) && ActorOk(s', s'.actors[id])
    requires IsArchive(s.actors[id]) ==> IsArchive(s'.actors[id]) && s'.actors[id].u == s.actors[id].u
    ensures ActorsOk(s')
  {
    forall i | i in s'.actors && i != id ensures ActorOk(s', s'.actors[i]) {
      ActorAt(s, i);
      assert Quiet(s', s'.actors[i].u) == Quiet(s, s'.actors[i].u);
    }
  }

  lemma SwapTended(s: State, s': State, id: nat)
    requires TableSteps.SameBut(s, s', id) && AllTended(s) && TableSteps.OwnersKept(s, s') && !s.actors[id].pc.Register?
    ensures AllTended(s')
  {
    forall pid | pid in s'.procs ensures Tended(s', pid) {
      assert Tended(s, pid);
    }
  }

  lemma SwapRest(s: State, s': State, id: nat)
    requires TableSteps.SameBut(s, s', id) && Ids(s) && Reapers(s) && Pids(s) && !s'.actors[id].pc.Register?
    ensures Ids(s') && Reapers(s') && Pids(s')
  {
  }

  /** Nothing of the VM's is running, and it has no process that is not yet registered. */
  lemma FreeQuiet(s: State, u: Uuid)
    requires AllTended(s) && Reapers(s) && u !in s.t.running && u !in s.t.owner
    ensures Quiet(s, u)
  {
    forall pid | pid in s.procs ensures s.procs[pid].u != u {
      assert Tended(s, pid);
    }
  }

  lemma GrantActor(s: State, s': State, a: Actor)
    requires LocalsOk(a) && a.pc.Begin? && (a.kind == StartVM ==> Quiet(s', a.u))
    ensures ActorOk(s', WithToken(a))
  {
  }

  lemma GrantSound(s: State, id: nat, t': Table)
    requires Core(s) && id in s.actors && s.actors[id].pc.Begin? && !s.actors[id].held && s.actors[id].u !in s.t.owner
    requires t'.owner == s.t.owner[s.actors[id].u := id] && t'.running == s.t.running && t'.closed == s.t.closed
    requires t'.archives == if s.actors[id].kind == ArchiveStoppedVM
                            then s.t.archives[s.actors[id].u := Archive(id, false)] else s.t.archives
    requires s.actors[id].kind == StartVM ==> s.actors[id].u !in s.t.running
    ensures Core(Become(s, id, WithToken(s.actors[id])).(t := t'))
  {
    var a, s' := s.actors[id], Become(s, id, WithToken(s.actors[id])).(t := t');
    TableSteps.GrantTokens(s, id, t');
    TableSteps.GrantShape(s, id, t');
    CoreLocals(s, id);
    if a.kind == StartVM {
      FreeQuiet(s, a.u);
    }
    GrantActor(s, s', a);
    SwapActors(s, s', id);
    SwapTended(s, s', id);
    SwapRest(s, s', id);
  }

  lemma WaitActor(s': State, a: Actor, a': Actor)
    requires LocalsOk(a) && a.pc.Begin? && a' == a.(pc := Wait, arch := a'.arch) && WaitOk(s', a'.u, a'.arch)
    ensures ActorOk(s', a')
  {
  }

  lemma WaitSound(s: State, id: nat)
    requires Core(s) && id in s.actors && s.actors[id].pc.Begin? && !s.actors[id].held && s.actors[id].u in s.t.archives
    ensures var a := s.actors[id].(pc := Wait, arch := s.t.archives[s.actors[id].u].id);
      Core(Become(s, id, a).(t := Cancel(s.t, a.u)))
  {
    var a := s.actors[id].(pc := Wait, arch := s.t.archives[s.actors[id].u].id);
    var s' := Become(s, id, a).(t := Cancel(s.t, a.u));
    TableSteps.BeginWaitTokens(s, id, a);
    TableSteps.BeginWaitShape(s, id, a);
    CoreLocals(s, id);
    WaitActor(s', s.actors[id], a);
    SwapActors(s, s', id);
    SwapTended(s, s', id);
    SwapRest(s, s', id);
  }

  lemma BeginSound(s: State, id: nat)
    requires Core(s) && id in s.actors && s.actors[id].pc.Begin?
    ensures Core(BeginStep(s, id, s.actors[id]))
  {
    var a := s.actors[id];
    CoreLocals(s, id);
    match TryBegin(s.t, a, id).outcome
    case Granted =>
      TableSteps.GrantedTable(s.t, a, id);
      GrantSound(s, id, TryBegin(s.t, a, id).t);
    case Busy => LeaveSound(s, id);
    case WaitFor(_) =>
      TableSteps.BlockedTable(s.t, a, id);
      WaitSound(s, id);
  }

  lemma ReadHeldOnward(s: State, a: Actor, c: Pick)
    requires LocalsOk(a) && a.pc.Read? && a.held
    ensures Onward(a, ReadHeld(s, a, c))
  {
  }

  lemma ReadEarlyOnward(a: Actor, row: Row)
    requires LocalsOk(a) && a.pc.Read? && !a.held
    ensures Onward(a, a.(row := row, hasRow := true, pc := Begin))
  {
  }

  lemma ReadHeldSound(s: State, id: nat, c: Pick)
    requires Core(s) && id in s.actors && s.actors[id].pc.Read? && s.actors[id].held
    ensures Core(Become(s, id, ReadHeld(s, s.actors[id], c)))
  {
    CoreLocals(s, id);
    ReadHeldOnward(s, s.actors[id], c);
    MovedKeeps(s, Become(s, id, ReadHeld(s, s.actors[id], c)), id);
  }

  lemma ReadEarlySound(s: State, id: nat)
    requires Core(s) && id in s.actors && s.actors[id].pc.Read? && !s.actors[id].held
    ensures Core(ReadEarly(s, id, s.actors[id]))
  {
    CoreLocals(s, id);
    if s.actors[id].u in s.rows {
      ReadEarlyOnward(s.actors[id], s.rows[s.actors[id].u]);
      MovedKeeps(s, ReadEarly(s, id, s.actors[id]), id);
    } else {
      LeaveSound(s, id);
    }
  }

  lemma PlainOnward(a: Actor)
    requires LocalsOk(a)
    ensures a.pc.SnapExists? ==> Onward(a, a.(pc := Read))
    ensures a.pc.Wait? ==> Onward(a, a.(pc := Begin))
    ensures a.held && !a.pc.Register? ==> Onward(a, Done(a))
  {
  }

  lemma SnapExistsSound(s: State, id: nat)
    requires Core(s) && id in s.actors && s.actors[id].pc.SnapExists?
    ensures Core(SnapExistsStep(s, id, s.actors[id]))
  {
    CoreLocals(s, id);
    if s.actors[id].sn in s.snaps {
      LeaveSound(s, id);
    } else {
      PlainOnward(s.actors[id]);
      MovedKeeps(s, SnapExistsStep(s, id, s.actors[id]), id);
    }
  }

  lemma WokenSound(s: State, id: nat)
    requires Core(s) && id in s.actors && s.actors[id].pc.Wait?
    ensures Core(Become(s, id, s.actors[id].(pc := Begin)))
  {
    CoreLocals(s, id);
    PlainOnward(s.actors[id]);
    MovedKeeps(s, Become(s, id, s.actors[id].(pc := Begin)), id);
  }

  lemma EarlySound(s: State, id: nat, c: Pick)
    requires Core(s) && id in s.actors
    requires var pc := s.actors[id].pc; pc.Begin? || pc.Wait? || pc.Read? || pc.SnapExists? || pc.End?
    ensures Sound(GoStep(s, id, c))
  {
    EarlyStep(s, id, c);
    match s.actors[id].pc
    case Begin => BeginSound(s, id);
    case Wait => WokenSound(s, id);
    case Read =>
      if s.actors[id].held {
        ReadHeldSound(s, id, c);
      } else {
        ReadEarlySound(s, id);
      }
    case SnapExists => SnapExistsSound(s, id);
    case End => EndSound(s, id);
  }

  // ---------------------------------------------------------------- launching

  /** The holder of a token is alone with its VM. */
  lemma Alone(s: State, id: nat, i: nat)
    requires Tokens(s) && id in s.actors && i in s.actors && i != id && s.actors[id].held && s.actors[i].held
    ensures s.actors[i].u != s.actors[id].u
  {
  }

  /** A process of another VM, and the operation that launches it, make no difference. */
  lemma ApartOk(s: State, s': State, id: nat, b: Actor)
    requires ActorOk(s, b) && LaunchSteps.OneActor(s, s', id) && s'.t.closed == s.t.closed && s'.nextPid >= s.nextPid
    requires b.held ==> Quiet(s', b.u) == Quiet(s, b.u) && (LaunchOk(s, b) ==> LaunchOk(s', b))
    ensures ActorOk(s', b)
  {
    if b.pc.Wait? {
      LaunchSteps.KeptWait(s, s', id, b.u, b.arch);
    }
  }

  lemma LaunchApart(s: State, id: nat, resume: bool, b: Actor)
    requires id in s.actors && s.actors[id].held && s.nextPid !in s.procs && ActorOk(s, b) && LocalsOk(s.actors[id])
    requires b.held ==> b.u != s.actors[id].u
    ensures ActorOk(LaunchStep(s, id, s.actors[id], resume), b)
  {
    var s' := LaunchStep(s, id, s.actors[id], resume);
    if b.held {
      LaunchSteps.QuietElsewhere(s, s', s.nextPid, b.u);
    }
    ApartOk(s, s', id, b);
  }

  lemma LaunchActors(s: State, id: nat, resume: bool)
    requires Tokens(s) && Ids(s) && ActorsOk(s) && id in s.actors
    requires s.actors[id].pc == if resume then ResumeLaunch else Launch
    ensures ActorsOk(LaunchStep(s, id, s.actors[id], resume))
  {
    var s' := LaunchStep(s, id, s.actors[id], resume);
    ActorAt(s, id);
    forall i | i in s'.actors && i != id ensures ActorOk(s', s'.actors[i]) {
      ActorAt(s, i);
      LaunchApart(s, id, resume, s.actors[i]);
    }
  }

  lemma LaunchTended(s: State, id: nat, resume: bool)
    requires Tokens(s) && AllTended(s) && id in s.actors && ActorOk(s, s.actors[id])
    requires s.actors[id].pc == if resume then ResumeLaunch else Launch
    ensures AllTended(LaunchStep(s, id, s.actors[id], resume))
  {
    var s' := LaunchStep(s, id, s.actors[id], resume);
    forall pid | pid in s.procs && pid != s.nextPid ensures Tended(s', pid) {
      assert Tended(s, pid) && s.procs[pid].u != s.actors[id].u;
    }
  }

  lemma LaunchPids(s: State, id: nat, resume: bool)
    requires Pids(s) && ActorsOk(s) && id in s.actors
    ensures Pids(LaunchStep(s, id, s.actors[id], resume))
  {
    forall i | i in s.actors && s.actors[i].pc.Register? ensures s.actors[i].pid != s.nextPid {
      ActorAt(s, i);
    }
  }

  lemma LaunchSound(s: State, id: nat, resume: bool)
    requires Core(s) && id in s.actors && s.actors[id].pc == if resume then ResumeLaunch else Launch
    ensures Core(LaunchStep(s, id, s.actors[id], resume))
  {
    ActorAt(s, id);
    LaunchSteps.LaunchTable(s, id, resume);
    LaunchPids(s, id, resume);
    LaunchTended(s, id, resume);
    LaunchActors(s, id, resume);
  }

  lemma RegisterApart(s: State, id: nat, b: Actor)
    requires id in s.actors && s.actors[id].held && s.actors[id].pc.Register? && ActorOk(s, b) && LocalsOk(s.actors[id])
    requires !Twins(s.actors[id], b) && (b.held ==> b.u != s.actors[id].u)
    ensures ActorOk(RegisterStep(s, id, s.actors[id]), b)
  {
    ApartOk(s, RegisterStep(s, id, s.actors[id]), id, b);
  }

  lemma RegisterActors(s: State, id: nat)
    requires Tokens(s) && Pids(s) && ActorsOk(s) && id in s.actors && s.actors[id].pc.Register?
    ensures ActorsOk(RegisterStep(s, id, s.actors[id]))
  {
    var s' := RegisterStep(s, id, s.actors[id]);
    ActorAt(s, id);
    forall i | i in s'.actors && i != id ensures ActorOk(s', s'.actors[i]) {
      ActorAt(s, i);
      assert !Twins(s.actors[id], s.actors[i]);
      RegisterApart(s, id, s.actors[i]);
    }
  }

  lemma RegisterTended(s: State, id: nat)
    requires Tokens(s) && AllTended(s) && id in s.actors && s.actors[id].pc.Register? && ActorOk(s, s.actors[id])
    ensures AllTended(RegisterStep(s, id, s.actors[id]))
  {
    var s' := RegisterStep(s, id, s.actors[id]);
    forall pid | pid in s'.procs ensures Tended(s', pid) {
      assert Tended(s, pid);
    }
  }

  lemma RegisterSound(s: State, id: nat)
    requires Core(s) && id in s.actors && s.actors[id].pc.Register?
    ensures Core(RegisterStep(s, id, s.actors[id]))
  {
    ActorAt(s, id);
    LaunchSteps.KeptTokens(s, RegisterStep(s, id, s.actors[id]), id);
    LaunchSteps.RegisterIds(s, id);
    RegisterTended(s, id);
    RegisterActors(s, id);
  }

  lemma AttachApart(s: State, id: nat, b: Actor)
    requires id in s.actors && s.actors[id].held && s.actors[id].pc.Settle? && LaunchOk(s, s.actors[id])
    requires s.actors[id].pid in s.procs && Hot(s.actors[id].row.name) in s.fs
    requires ActorOk(s, b) && (b.held ==> b.u != s.actors[id].u)
    ensures ActorOk(AttachStep(s, id, s.actors[id]), b)
  {
    var s' := AttachStep(s, id, s.actors[id]);
    if b.held {
      LaunchSteps.QuietElsewhere(s, s', s.actors[id].pid, b.u);
    }
    ApartOk(s, s', id, b);
  }

  lemma AttachActors(s: State, id: nat)
    requires Tokens(s) && ActorsOk(s) && id in s.actors && s.actors[id].pc.Settle?
    requires s.actors[id].pid in s.procs && Hot(s.actors[id].row.name) in s.fs
    ensures ActorsOk(AttachStep(s, id, s.actors[id]))
  {
    var s' := AttachStep(s, id, s.actors[id]);
    ActorAt(s, id);
    forall i | i in s'.actors && i != id ensures ActorOk(s', s'.actors[i]) {
      ActorAt(s, i);
      AttachApart(s, id, s.actors[i]);
    }
  }

  lemma AttachTended(s: State, id: nat)
    requires AllTended(s) && id in s.actors && s.actors[id].pc.Settle? && ActorOk(s, s.actors[id])
    requires s.actors[id].pid in s.procs && Hot(s.actors[id].row.name) in s.fs
    ensures AllTended(AttachStep(s, id, s.actors[id]))
  {
    var s' := AttachStep(s, id, s.actors[id]);
    forall pid | pid in s'.procs ensures Tended(s', pid) {
      assert Tended(s, pid);
    }
  }

  lemma AttachTable(s: State, id: nat)
    requires Tokens(s) && Ids(s) && Reapers(s) && Pids(s) && id in s.actors && s.actors[id].held
    requires s.actors[id].pid in s.procs && Hot(s.actors[id].row.name) in s.fs
    ensures var s' := AttachStep(s, id, s.actors[id]); Tokens(s') && Ids(s') && Reapers(s') && Pids(s')
  {
    LaunchSteps.KeptTokens(s, AttachStep(s, id, s.actors[id]), id);
  }

  lemma AttachSound(s: State, id: nat)
    requires Core(s) && id in s.actors && s.actors[id].pc.Settle?
    requires s.actors[id].pid in s.procs && Hot(s.actors[id].row.name) in s.fs
    ensures Core(AttachStep(s, id, s.actors[id]))
  {
    ActorAt(s, id);
    AttachTable(s, id);
    AttachTended(s, id);
    AttachActors(s, id);
  }

  lemma DoneSound(s: State, s': State, id: nat)
    requires Core(s) && id in s.actors && s.actors[id].held && !s.actors[id].pc.Register?
    requires SameHost(s, s') && s'.actors == s.actors[id := Done(s.actors[id])]
    ensures Core(s')
  {
    CoreLocals(s, id);
    PlainOnward(s.actors[id]);
    MovedKeeps(s, s', id);
  }

  lemma SettleSound(s: State, id: nat)
    requires Core(s) && id in s.actors && s.actors[id].pc.Settle?
    ensures Core(SettleStep(s, id, s.actors[id]))
  {
    var a := s.actors[id];
    CoreLocals(s, id);
    if a.resume && a.pid in s.procs && Hot(a.row.name) in s.fs {
      AttachSound(s, id);
    } else {
      DoneSound(s, SettleStep(s, id, a), id);
    }
  }

  lemma LateSound(s: State, id: nat, c: Pick)
    requires Core(s) && id in s.actors && Late(s.actors[id].pc)
    ensures Sound(GoStep(s, id, c))
  {
    LateStep(s, id, c);
    CoreLocals(s, id);
    match s.actors[id].pc
    case Launch => LaunchSound(s, id, false);
    case ResumeLaunch => LaunchSound(s, id, true);
    case Register => RegisterSound(s, id);
    case Settle => SettleSound(s, id);
    case DeleteRow => DoneSound(s, DeleteRowStep(s, id, s.actors[id]), id);
    case SnapCommit => DoneSound(s, SnapCommitStep(s, id, s.actors[id]), id);
  }

  lemma GoSound(s: State, id: nat, c: Pick)
    requires Core(s) && id in s.actors && GoEnabled(s, s.actors[id], c)
    ensures Sound(GoStep(s, id, c))
  {
    var pc := s.actors[id].pc;
    if Inside(pc) {
      InsideSound(s, id, c);
    } else if pc.Begin? || pc.Wait? || pc.Read? || pc.SnapExists? || pc.End? {
      EarlySound(s, id, c);
    } else {
      LateSound(s, id, c);
    }
  }

  // ---------------------------------------------------------------- the other steps

  /** Nothing but rows, files, contents and snapshots has changed. */
  lemma SameSound(s: State, s': State)
    requires Core(s) && SameHost(s, s') && s'.actors == s.actors
    ensures Core(s')
  {
    forall pid | pid in s'.procs ensures Tended(s', pid) {
      assert Tended(s, pid);
    }
    forall i | i in s'.actors ensures ActorOk(s', s'.actors[i]) {
      ActorAt(s, i);
      assert Quiet(s', s'.actors[i].u) == Quiet(s, s'.actors[i].u);
    }
  }

  lemma FewerActors(s: State, s': State)
    requires ActorsOk(s) && EnvSteps.Fewer(s, s')
    ensures ActorsOk(s')
  {
    forall i | i in s'.actors ensures ActorOk(s', s'.actors[i]) {
      ActorAt(s, i);
    }
  }

  lemma ExitSound(s: State, pid: nat)
    requires Core(s) && pid in s.procs
    ensures Core(s.(procs := s.procs - {pid}))
  {
    var s' := s.(procs := s.procs - {pid});
    forall p | p in s'.procs ensures Tended(s', p) {
      assert Tended(s, p);
    }
    FewerActors(s, s');
  }

  lemma SeeExitSound(s: State, pid: nat)
    requires Core(s) && pid in s.reapers && pid !in s.procs
    ensures Core(SeeExit(s, pid))
  {
    var s' := SeeExit(s, pid);
    forall p | p in s'.procs ensures Tended(s', p) {
      assert Tended(s, p);
    }
    FewerActors(s, s');
  }

  lemma DropEntrySound(s: State, pid: nat)
    requires Core(s) && pid in s.reapers && pid !in s.procs
    ensures Core(DropEntry(s, pid))
  {
    var s' := DropEntry(s, pid);
    forall p | p in s'.procs ensures Tended(s', p) {
      assert Tended(s, p);
    }
    FewerActors(s, s');
  }

  lemma SpawnTable(s: State, a: Actor)
    requires Tokens(s) && Ids(s) && Reapers(s) && Pids(s) && !a.held && !a.pc.Register?
    ensures var s' := SpawnStep(s, a); Tokens(s') && Ids(s') && Reapers(s') && Pids(s')
  {
  }

  lemma SpawnTended(s: State, a: Actor)
    requires AllTended(s) && s.nextId !in s.actors
    ensures AllTended(SpawnStep(s, a))
  {
    var s' := SpawnStep(s, a);
    forall p | p in s'.procs ensures Tended(s', p) {
      assert Tended(s, p);
    }
  }

  lemma SpawnActors(s: State, a: Actor)
    requires ActorsOk(s) && s.nextId !in s.actors && ActorOk(SpawnStep(s, a), a)
    ensures ActorsOk(SpawnStep(s, a))
  {
    var s' := SpawnStep(s, a);
    forall i | i in s.actors ensures ActorOk(s', s.actors[i]) {
      ActorAt(s, i);
      assert Quiet(s', s.actors[i].u) == Quiet(s, s.actors[i].u);
    }
  }

  lemma RequestOk(s: State, kind: Kind, u: Uuid, sn: string)
    ensures ActorOk(s, Request(kind, u, sn)) && !Request(kind, u, sn).held && !Request(kind, u, sn).pc.Register?
  {
  }

  lemma SpawnSound(s: State, kind: Kind, u: Uuid, sn: string)
    requires Core(s)
    ensures Core(SpawnStep(s, Request(kind, u, sn)))
  {
    RequestOk(SpawnStep(s, Request(kind, u, sn)), kind, u, sn);
    SpawnTable(s, Request(kind, u, sn));
    SpawnTended(s, Request(kind, u, sn));
    SpawnActors(s, Request(kind, u, sn));
  }

  lemma CrashSound(s: State)
    requires Core(s)
    ensures Core(CrashStep(s))
  {
  }

  lemma ReapSound(s: State, pid: nat)
    requires Core(s) && Enabled(s, Reap(pid))
    ensures Sound(Apply(s, Reap(pid)))
  {
    if s.reapers[pid].exited {
      DropEntrySound(s, pid);
    } else {
      SeeExitSound(s, pid);
    }
  }

  lemma GuestWriteSound(s: State, pid: nat, data: Content)
    requires Core(s) && pid in s.procs
    ensures Core(GuestWriteStep(s, pid, data))
  {
    SameSound(s, GuestWriteStep(s, pid, data));
  }

  lemma SetStateSound(s: State, u: Uuid, state: string)
    requires Core(s) && u in s.rows
    ensures Core(SetStateStep(s, u, state))
  {
    SameSound(s, SetStateStep(s, u, state));
  }

  lemma CreateSound(s: State, u: Uuid, name: string, image: Option<Content>)
    requires Core(s)
    ensures Core(CreateStep(s, u, name, image))
  {
    SameSound(s, CreateStep(s, u, name, image));
  }

  /** Every step of every run keeps it. */
  lemma StepSound(s: State, l: Label)
    requires Core(s) && Enabled(s, l)
    ensures Sound(Apply(s, l))
  {
    match l
    case Spawn(kind, u, sn) => SpawnSound(s, kind, u, sn);
    case Go(id, c) => GoSound(s, id, c);
    case Fail(id) => FailSound(s, id);
    case Exit(pid) => ExitSound(s, pid);
    case GuestWrite(pid, data) => GuestWriteSound(s, pid, data);
    case Reap(pid) => ReapSound(s, pid);
    case SetState(u, state) => SetStateSound(s, u, state);
    case Create(u, name, image) => CreateSound(s, u, name, image);
    case Crash => CrashSound(s);
  }

  lemma RegisterKnows(s: State, id: nat)
    requires ActorsOk(s) && id in s.actors && s.actors[id].pc.Register?
    ensures LaunchOk(s, s.actors[id])
  {
    ActorAt(s, id);
  }

  lemma OneTended(s: State, p: nat, q: nat)
    requires Core(s) && p in s.procs && q in s.procs && s.procs[p].u == s.procs[q].u
    ensures p == q
  {
    var u := s.procs[p].u;
    assert Tended(s, p) && Tended(s, q);
    if u in s.t.owner && s.t.owner[u] in s.actors && s.actors[s.t.owner[u]].pc.Register? {
      RegisterKnows(s, s.t.owner[u]);
    }
  }

  lemma {:induction false} RunSound(s: State, ls: seq<Label>)
    requires Core(s) && Executable(s, ls)
    ensures Core(Run(s, ls))
    decreases |ls|
  {
    if ls != [] {
      StepSound(s, ls[0]);
      RunSound(Apply(s, ls[0]), ls[1..]);
    }
  }

  /** The state is reached from an empty host by any run at all. */
  ghost predicate Reached(s: State) {
    exists cfg, ls :: Executable(Init(cfg), ls) && Run(Init(cfg), ls) == s
  }

  lemma ReachedCore(s: State)
    requires Reached(s)
    ensures Core(s)
  {
    var cfg, ls :| Executable(Init(cfg), ls) && Run(Init(cfg), ls) == s;
    RunSound(Init(cfg), ls);
  }

  lemma ReachedNext(s: State, l: Label)
    requires Reached(s) && Enabled(s, l)
    ensures Reached(Apply(s, l))
  {
    var cfg, ls :| Executable(Init(cfg), ls) && Run(Init(cfg), ls) == s;
    OneStep(s, l);
    RunAppend(Init(cfg), ls, [l]);
  }
}
