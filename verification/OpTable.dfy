/**
The three maps that the VM manager keeps under one mutex, and the critical
sections that change them.

`vmOps` is a set in the source. Here it maps a VM to the operation that took its
token, so that "only the holder releases" can be said; no critical section reads
the owner back.
*/
module OpTable {
  type Uuid = string

  // `id` stands for the identity of a `coldArchiveOperation` and of its `done` channel.
  datatype Archive = Archive(id: nat, canceled: bool)

  datatype Table = Table(
    running: map<Uuid, nat>,
    owner: map<Uuid, nat>,
    archives: map<Uuid, Archive>,
    closed: set<nat>)

  datatype Begin = Granted | Busy | WaitFor(archive: nat)

  datatype Begun = Begun(t: Table, outcome: Begin)

  function Cancel(t: Table, u: Uuid): Table
    requires u in t.archives
  {
    t.(archives := t.archives[u := t.archives[u].(canceled := true)])
  }

  /** One turn of the loop of `beginVMOperationCancelingColdArchive`. */
  function BeginOp(t: Table, u: Uuid, id: nat): Begun {
    if u in t.archives then Begun(Cancel(t, u), WaitFor(t.archives[u].id))
    else if u in t.owner then Begun(t, Busy)
    else Begun(t.(owner := t.owner[u := id]), Granted)
  }

  /** One turn of the loop of `beginStartOperationCancelingColdArchive`. */
  function BeginStart(t: Table, u: Uuid, id: nat): Begun {
    if u in t.running then Begun(t, Busy) else BeginOp(t, u, id)
  }

  /** `beginColdArchiveOperation`. */
  function BeginArchive(t: Table, u: Uuid, id: nat): Begun {
    if u in t.owner then Begun(t, Busy)
    else Begun(t.(owner := t.owner[u := id], archives := t.archives[u := Archive(id, false)]), Granted)
  }

  /** `endVMOperation`: the delete is unconditional. */
  function EndOp(t: Table, u: Uuid): Table {
    t.(owner := t.owner - {u})
  }

  /** The `end` closure of an archive. */
  function EndArchive(t: Table, u: Uuid, id: nat): Table {
    Table(t.running, t.owner - {u},
          if u in t.archives && t.archives[u].id == id then t.archives - {u} else t.archives,
          t.closed + {id})
  }

  /** A recorded archive is the operation that holds its VM's token, and its `done` is open. */
  ghost predicate TableOk(t: Table) {
    forall u :: u in t.archives ==>
      u in t.owner && t.archives[u].id == t.owner[u] && t.archives[u].id !in t.closed
  }

  /** A begin that succeeds finds no holder and no archive, and leaves the caller sole holder. */
  lemma BeginIsExclusive(t: Table, u: Uuid, id: nat)
    requires TableOk(t)
    ensures BeginOp(t, u, id).outcome == Granted <==> u !in t.owner
    ensures BeginStart(t, u, id).outcome == Granted <==> u !in t.owner && u !in t.running
    ensures BeginArchive(t, u, id).outcome == Granted <==> u !in t.owner
    ensures BeginOp(t, u, id).outcome == Granted ==>
      var t' := BeginOp(t, u, id).t;
      t'.owner[u] == id && u !in t'.archives && t' == t.(owner := t.owner[u := id])
  {
    // A VM without a holder has no recorded archive.
    assert u in t.archives ==> u in t.owner;
  }

  /** Every begin keeps each recorded archive tied to its token. */
  lemma BeginsKeepTable(t: Table, u: Uuid, id: nat)
    requires TableOk(t) && id !in t.closed
    ensures TableOk(BeginOp(t, u, id).t) && TableOk(BeginStart(t, u, id).t) && TableOk(BeginArchive(t, u, id).t)
  {
  }

  /** So does every end by the holder: an operation that is no archive, or the recorded archive itself. */
  lemma EndsKeepTable(t: Table, u: Uuid, id: nat)
    requires TableOk(t) && u in t.owner && t.owner[u] == id
    ensures u !in t.archives ==> TableOk(EndOp(t, u))
    ensures u in t.archives && (forall v :: v in t.owner && t.owner[v] == id ==> v == u) ==>
      TableOk(EndArchive(t, u, id)) && u !in EndArchive(t, u, id).archives && id in EndArchive(t, u, id).closed
  {
  }

  /** Each reaper's VM has that reaper's process registered, and each registered process has its reaper. */
  ghost predicate ReapersOk(running: map<Uuid, nat>, reapers: map<nat, Uuid>) {
    && (forall pid :: pid in reapers ==> reapers[pid] in running && running[reapers[pid]] == pid)
    && (forall u :: u in running ==> running[u] in reapers && reapers[running[u]] == u)
  }

  /**
  The `Manager` fields guarded by its mutex. Each method is one critical section, makes
  exactly the step of the protocol model, and keeps `Valid`.
  */
  class Locks {
    var running: map<Uuid, nat>
    var vmOps: map<Uuid, nat>
    var coldArchives: map<Uuid, Archive>
    var closed: set<nat>
    // The goroutines that wait for a process, and the VM each will clear.
    ghost var reapers: map<nat, Uuid>

    ghost function View(): Table
      reads this
    {
      Table(running, vmOps, coldArchives, closed)
    }

    /** Every recorded archive holds its VM's token with `done` open, and every reaper owns its entry. */
    ghost predicate Valid()
      reads this
    {
      TableOk(View()) && ReapersOk(running, reapers)
    }

    constructor ()
      ensures Valid() && View() == Table(map[], map[], map[], {})
    {
      running, vmOps, coldArchives, closed, reapers := map[], map[], map[], {}, map[];
    }

    /**
    Granted exactly when nobody holds the token, and then the caller is the only holder and no
    archive is recorded; told to wait exactly for an archive that holds the token and is now
    cancelled; otherwise refused with nothing changed.
    */
    method BeginVMOperationCancelingColdArchive(u: Uuid, id: nat) returns (r: Begin)
      requires Valid() && id !in closed
      modifies this
      ensures Valid() && View() == BeginOp(old(View()), u, id).t
      ensures running == old(running) && closed == old(closed) && reapers == old(reapers)
      ensures r == Granted <==> u !in old(vmOps)
      ensures r == Granted ==> vmOps == old(vmOps)[u := id] && u !in coldArchives && coldArchives == old(coldArchives)
      ensures r.WaitFor? <==> u in old(coldArchives)
      ensures r.WaitFor? ==> u in vmOps && vmOps[u] == r.archive && r.archive !in closed
      ensures r.WaitFor? ==> vmOps == old(vmOps) && coldArchives == old(coldArchives)[u := Archive(r.archive, true)]
      ensures r == Busy ==> View() == old(View())
    {
      BeginIsExclusive(View(), u, id);
      BeginsKeepTable(View(), u, id);
      if u in coldArchives {
        var archive := coldArchives[u];
        coldArchives := coldArchives[u := archive.(canceled := true)];
        return WaitFor(archive.id);
      }
      if u in vmOps {
        return Busy;
      }
      vmOps := vmOps[u := id];
      return Granted;
    }

    /** The same for a start, which is also refused while a process of the VM is registered. */
    method BeginStartOperationCancelingColdArchive(u: Uuid, id: nat) returns (r: Begin)
      requires Valid() && id !in closed
      modifies this
      ensures Valid() && View() == BeginStart(old(View()), u, id).t
      ensures running == old(running) && closed == old(closed) && reapers == old(reapers)
      ensures r == Granted <==> u !in old(vmOps) && u !in running
      ensures r == Granted ==> vmOps == old(vmOps)[u := id] && u !in coldArchives && coldArchives == old(coldArchives)
      ensures r.WaitFor? <==> u in old(coldArchives) && u !in running
      ensures r.WaitFor? ==> u in vmOps && vmOps[u] == r.archive && r.archive !in closed
      ensures r.WaitFor? ==> vmOps == old(vmOps) && coldArchives == old(coldArchives)[u := Archive(r.archive, true)]
      ensures r == Busy ==> View() == old(View())
    {
      BeginIsExclusive(View(), u, id);
      BeginsKeepTable(View(), u, id);
      if u in running {
        return Busy;
      }
      if u in coldArchives {
        var archive := coldArchives[u];
        coldArchives := coldArchives[u := archive.(canceled := true)];
        return WaitFor(archive.id);
      }
      if u in vmOps {
        return Busy;
      }
      vmOps := vmOps[u := id];
      return Granted;
    }

    /** Granted exactly when nobody holds the token; the record and the token then name the same archive, not cancelled. */
    method BeginColdArchiveOperation(u: Uuid, id: nat) returns (r: Begin)
      requires Valid() && id !in closed
      modifies this
      ensures Valid() && View() == BeginArchive(old(View()), u, id).t
      ensures running == old(running) && closed == old(closed) && reapers == old(reapers)
      ensures r == Granted <==> u !in old(vmOps)
      ensures r == Granted ==> u !in old(coldArchives)
      ensures r == Granted ==> vmOps == old(vmOps)[u := id] && coldArchives == old(coldArchives)[u := Archive(id, false)]
      ensures r != Granted ==> r == Busy && View() == old(View())
    {
      BeginIsExclusive(View(), u, id);
      BeginsKeepTable(View(), u, id);
      if u in vmOps {
        return Busy;
      }
      vmOps := vmOps[u := id];
      coldArchives := coldArchives[u := Archive(id, false)];
      return Granted;
    }

    /** Called by a holder that is no archive: its token is free for the next begin, and nobody else's is touched. */
    method EndVMOperation(u: Uuid, ghost id: nat)
      requires Valid() && u in vmOps && vmOps[u] == id && u !in coldArchives
      modifies this
      ensures Valid() && View() == EndOp(old(View()), u)
      ensures u !in vmOps && vmOps == old(vmOps) - {u} && coldArchives == old(coldArchives)
      ensures running == old(running) && closed == old(closed) && reapers == old(reapers)
    {
      EndsKeepTable(View(), u, id);
      vmOps := vmOps - {u};
    }

    /**
    Called by the recorded archive: token and record go together, nobody else's is touched, and
    `done`, open until now, is closed, so whoever was told to wait for this archive goes on.
    */
    method EndColdArchive(u: Uuid, id: nat)
      requires Valid() && u in vmOps && vmOps[u] == id && u in coldArchives
      requires forall v :: v in vmOps && vmOps[v] == id ==> v == u
      modifies this
      ensures Valid() && View() == EndArchive(old(View()), u, id)
      ensures u !in vmOps && u !in coldArchives && vmOps == old(vmOps) - {u} && coldArchives == old(coldArchives) - {u}
      ensures id !in old(closed) && closed == old(closed) + {id} && running == old(running) && reapers == old(reapers)
    {
      EndsKeepTable(View(), u, id);
      if u in coldArchives && coldArchives[u].id == id {
        coldArchives := coldArchives - {u};
      }
      vmOps := vmOps - {u};
      closed := closed + {id};
    }

    /** Called by the holder of a VM without a registered process: the new process has the entry, and its reaper will clear it. */
    method Register(u: Uuid, pid: nat)
      requires Valid() && u in vmOps && u !in running && pid !in reapers
      modifies this
      ensures Valid() && running == old(running)[u := pid] && reapers == old(reapers)[pid := u]
      ensures View() == old(View()).(running := running)
    {
      running := running[u := pid];
      reapers := reapers[pid := u];
    }

    /** The reaper deletes by UUID: the entry it deletes is that of its own process, and every other process stays registered. */
    method Reap(u: Uuid, ghost pid: nat)
      requires Valid() && pid in reapers && reapers[pid] == u
      modifies this
      ensures Valid() && u in old(running) && old(running)[u] == pid && pid !in reapers
      ensures u !in running && forall v :: v in old(running) && old(running)[v] != pid ==> v in running && running[v] == old(running)[v]
      ensures View() == old(View()).(running := old(running) - {u}) && reapers == old(reapers) - {pid}
    {
      running := running - {u};
      reapers := reapers - {pid};
    }
  }
}
