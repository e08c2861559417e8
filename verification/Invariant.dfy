/**
What the VM manager keeps, step by step, if its callers mind what they have to. `PcOk`
says, for each program counter, what its operation may rely on; the other predicates
relate the operation table, the rows, the files and the processes to each other.
*/
module Invariant {
  import opened Options
  import opened OpTable
  import opened World

  /** Neither the `running` map nor the process list knows the VM. */
  ghost predicate Quiet(s: State, u: Uuid) {
    u !in s.t.running && forall pid :: pid in s.procs ==> s.procs[pid].u != u
  }

  /** A recorded archive is at the VM's cold path. */
  predicate RowShape(cfg: Config, row: Row) {
    row.archived.Some? ==> cfg.coldOn && row.archived.value == Cold(row.name)
  }

  /** A carried row is its VM's row, up to state and archived path, and names no other VM. */
  ghost predicate RowOk(s: State, u: Uuid, row: Row) {
    && (u in s.rows ==> s.rows[u].name == row.name)
    && (forall v :: v in s.rows && s.rows[v].name == row.name ==> v == u)
    && RowShape(s.cfg, row)
  }

  /** A waiter's `done` is closed, or the archive that will close it is still at work. */
  ghost predicate WaitOk(s: State, u: Uuid, arch: nat) {
    arch in s.t.closed || (arch in s.actors && IsArchive(s.actors[arch]) && s.actors[arch].u == u)
  }

  function Look<K, V>(m: map<K, V>, k: K): Option<V> {
    if k in m then Some(m[k]) else None
  }

  /** Everything a holder sees of its own VM. */
  datatype View = View(
    row: Option<Row>, disk: Option<Content>, hot: Option<Content>, cold: Option<Content>,
    hotTmp: Option<Content>, coldTmp: Option<Content>, snap: Option<Content>,
    quiet: bool)

  function Sees(rows: map<Uuid, Row>, disk: map<Uuid, Content>, fs: Files, quiet: bool, a: Actor): View {
    var n := a.row.name;
    View(Look(rows, a.u), Look(disk, a.u), Look(fs, Hot(n)), Look(fs, Cold(n)),
         Look(fs, HotTmp(n, a.k)), Look(fs, ColdTmp(n, a.k)),
         if Writing(a) then Look(fs, Snap(a.sn)) else None, quiet)
  }

  ghost function ViewOf(s: State, a: Actor): View {
    Sees(s.rows, s.disk, s.fs, Quiet(s, a.u), a)
  }

  /** Nothing is left in the VM's own directory. */
  predicate HotGone(fs: Files, n: string) {
    forall p :: p in fs && Under(p, n) ==> !p.Hot? && !p.HotTmp?
  }

  /** Nothing is left of the VM at all. */
  predicate AllGone(fs: Files, n: string) {
    forall p :: p in fs ==> !Under(p, n)
  }

  /** A block-by-block copy has reached block `i`. */
  predicate Copied(from: Option<Content>, to: Option<Content>, i: nat) {
    from.Some? && to.Some? && i <= |from.value| && to.value == from.value[..i]
  }

  /** The content that a snapshot copies, and that it is the VM's content if the VM has a disk. */
  function Source(v: View, a: Actor): Option<Content> {
    if a.src == Hot(a.row.name) then v.hot else v.cold
  }

  predicate SourceOk(v: View, a: Actor) {
    && (a.src == Hot(a.row.name) || a.src == Cold(a.row.name))
    && (v.disk.Some? ==> Source(v, a) == v.disk)
  }

  /** The VM is quiet and its row is the one the operation has read. */
  predicate Mine(v: View) {
    v.quiet && v.row.Some?
  }

  predicate Unarchived(v: View) {
    v.row.Some? && v.row.value.archived.None?
  }

  predicate AsRead(v: View, a: Actor) {
    v.row.Some? && v.row.value.archived == a.row.archived
  }

  /** What a holder knows about its VM at each program counter. */
  predicate ViewOk(v: View, a: Actor) {
    var n := a.row.name;
    match a.pc
    case Read => a.kind == StartVM ==> v.quiet
    case HydrateStat => Mine(v) && AsRead(v, a)
    case HydrateClear => Mine(v) && AsRead(v, a) && a.row.archived.Some? && v.hot.Some?
    case HydrateDropStale => Mine(v) && Unarchived(v) && v.hot.Some?
    case HydrateTmp => Mine(v) && AsRead(v, a) && a.src == Cold(n) && v.hot.None? && v.cold.Some?
    case HydrateCopy => Mine(v) && AsRead(v, a) && a.src == Cold(n) && v.hot.None? && Copied(v.cold, v.hotTmp, a.i)
    case HydrateRename => Mine(v) && AsRead(v, a) && v.hot.None? && a.src == Cold(n) && v.cold.Some? && v.cold == v.hotTmp
    case HydrateForget => Mine(v) && a.src == Cold(n) && v.hot.Some?
    case HydrateDropCold => Mine(v) && Unarchived(v) && a.src == Cold(n) && v.hot.Some?
    case HydrateCleanup => Mine(v)
    case Ensure => Mine(v) && Unarchived(v)
    case Fill => Mine(v) && Unarchived(v) && v.disk.None? && v.hot.Some?
    case Edit => Mine(v) && Unarchived(v) && v.disk.Some? && v.hot.Some?
    case Launch => Mine(v) && Unarchived(v) && v.disk.Some? && v.hot.Some?
    case ResumeLaunch => Mine(v)
    case Register => v.row.Some?
    case Settle => v.row.Some?
    case ArchiveCheck => IsArchive(a) && v.row.Some?
    case ArchiveStat => IsArchive(a) && Mine(v)
    case ArchiveTmp => IsArchive(a) && Mine(v) && v.hot.Some?
    case ArchiveCopy => IsArchive(a) && Mine(v) && Copied(v.hot, v.coldTmp, a.i)
    case ArchiveConfirm => IsArchive(a) && Mine(v) && v.hot.Some? && v.coldTmp == v.hot
    case ArchiveDropOld => IsArchive(a) && Mine(v) && v.hot.Some? && v.coldTmp == v.hot
    case ArchiveRename => IsArchive(a) && Mine(v) && v.hot.Some? && v.coldTmp == v.hot
    case ArchiveRecord => IsArchive(a) && Mine(v) && v.hot.Some? && v.cold == v.hot
    case ArchiveDropHot => IsArchive(a) && Mine(v) && v.hot.Some? && v.cold == v.hot && v.row.value.archived == Some(Cold(n))
    case ArchiveCleanup => IsArchive(a) && Mine(v)
    case DeleteHot => v.quiet
    case DeleteRecorded => v.quiet && v.disk.None?
    case DeleteCold => v.quiet && v.disk.None? && (a.row.archived.Some? ==> v.cold.None?)
    case DeleteRow => v.quiet && v.disk.None?
    case SnapCheck => IsSave(a)
    case SnapResolve => IsSave(a) && v.quiet
    case SnapOpen => IsSave(a) && v.quiet && SourceOk(v, a)
    case SnapCopy => IsSave(a) && v.quiet && SourceOk(v, a) && Copied(Source(v, a), v.snap, a.i)
    case SnapCommit => IsSave(a) && v.quiet && SourceOk(v, a) && Source(v, a).Some? && v.snap == Source(v, a)
    case _ => true
  }

  /** What a delete has removed so far. */
  predicate GoneOk(coldOn: bool, fs: Files, a: Actor) {
    && (a.pc.DeleteRecorded? || a.pc.DeleteCold? || a.pc.DeleteRow? ==> HotGone(fs, a.row.name))
    && (a.pc.DeleteRow? && coldOn ==> AllGone(fs, a.row.name))
  }

  /** Around the launch the only process of the VM is the one just started. */
  ghost predicate LaunchOk(s: State, a: Actor) {
    && (a.pc.Register? ==>
          && a.u !in s.t.running && a.pid !in s.reapers
          && forall p :: p in s.procs && s.procs[p].u == a.u ==> p == a.pid)
    && (a.pc.Register? || a.pc.Settle? ==>
          a.pid < s.nextPid && (a.pid in s.procs ==> s.procs[a.pid].u == a.u))
  }

  /** Which locals an operation has at its program counter. */
  predicate LocalsOk(a: Actor) {
    match a.pc
    case Begin => !a.held && (a.hasRow <==> a.kind == DeleteVM || a.kind == SaveSnapshot)
    case Wait => !a.held && (a.hasRow <==> a.kind == DeleteVM || a.kind == SaveSnapshot)
    case Read => !a.hasRow && (a.held <==> a.kind == StartVM || a.kind == ArchiveStoppedVM)
    case SnapExists => !a.held && !a.hasRow && IsSave(a)
    case End => a.held && !a.hasRow
    case _ => a.held && a.hasRow
  }

  ghost predicate PcOk(s: State, a: Actor) {
    && LocalsOk(a)
    && (a.hasRow ==> RowOk(s, a.u, a.row))
    && (a.pc.Wait? ==> WaitOk(s, a.u, a.arch))
    && (IsArchive(a) ==> s.cfg.coldOn)
    && (Writing(a) ==> a.sn !in s.snaps)
    && LaunchOk(s, a)
    && GoneOk(s.cfg.coldOn, s.fs, a)
    && ViewOk(ViewOf(s, a), a)
  }

  /** The hot disk, if there is one, holds the VM's content; otherwise the recorded archive does. */
  ghost predicate DiskOk(s: State, u: Uuid)
    requires u in s.disk
  {
    && u in s.rows
    && var row := s.rows[u];
       if Hot(row.name) in s.fs then s.fs[Hot(row.name)] == s.disk[u]
       else row.archived.Some? && row.archived.value in s.fs && s.fs[row.archived.value] == s.disk[u]
  }

  ghost predicate Tokens(s: State) {
    && (forall u :: u in s.t.owner ==>
          s.t.owner[u] in s.actors && s.actors[s.t.owner[u]].held && s.actors[s.t.owner[u]].u == u)
    && (forall id :: id in s.actors && s.actors[id].held ==>
          s.actors[id].u in s.t.owner && s.t.owner[s.actors[id].u] == id)
    && (forall u :: u in s.t.archives ==>
          u in s.t.owner && s.t.archives[u].id == s.t.owner[u] && IsArchive(s.actors[s.t.owner[u]]))
    && (forall id :: id in s.actors && IsArchive(s.actors[id]) ==>
          s.actors[id].u in s.t.archives && s.t.archives[s.actors[id].u].id == id)
  }

  ghost predicate Ids(s: State) {
    && (forall id :: id in s.actors ==> id < s.nextId)
    && (forall id :: id in s.t.closed ==> id < s.nextId && id !in s.actors)
    && (forall pid :: pid in s.procs ==> pid < s.nextPid)
    && (forall pid :: pid in s.reapers ==> pid < s.nextPid)
  }

  ghost predicate Rows(s: State) {
    && (forall u, v :: u in s.rows && v in s.rows && s.rows[u].name == s.rows[v].name ==> u == v)
    && (forall u :: u in s.rows ==> RowShape(s.cfg, s.rows[u]))
  }

  /** Two operations that carry rows with one name work on one VM. */
  predicate OneVm(a: Actor, b: Actor) {
    a.hasRow && b.hasRow && a.row.name == b.row.name ==> a.u == b.u
  }

  /** Two operations have one snapshot open, or are about to register one process. */
  predicate Clash(a: Actor, b: Actor) {
    || (Writing(a) && Writing(b) && a.sn == b.sn)
    || (a.pc.Register? && b.pc.Register? && a.pid == b.pid)
  }

  ghost predicate Names(s: State) {
    && (forall i, j :: i in s.actors && j in s.actors ==> OneVm(s.actors[i], s.actors[j]))
    && (forall i, j :: i in s.actors && j in s.actors && Clash(s.actors[i], s.actors[j]) ==> i == j)
  }

  /** The process has its reaper, or its VM's holder is about to register it. */
  ghost predicate Tended(s: State, pid: nat)
    requires pid in s.procs
  {
    var u := s.procs[pid].u;
    || (pid in s.reapers && s.reapers[pid] == Reaper(u, false))
    || (u in s.t.owner && s.t.owner[u] in s.actors
        && s.actors[s.t.owner[u]].pc.Register? && s.actors[s.t.owner[u]].pid == pid)
  }

  ghost predicate ProcOk(s: State, pid: nat)
    requires pid in s.procs
  {
    var p := s.procs[pid];
    && p.u in s.rows && s.rows[p.u].name == p.name
    && (p.attached ==> p.u in s.disk && Hot(p.name) in s.fs)
    && Tended(s, pid)
  }

  /** Each reaper owns its VM's `running` entry, and each entry has its reaper. */
  ghost predicate Reapers(s: State) {
    && (forall pid :: pid in s.reapers ==>
          s.reapers[pid].u in s.t.running && s.t.running[s.reapers[pid].u] == pid)
    && (forall u :: u in s.t.running ==> s.t.running[u] in s.reapers && s.reapers[s.t.running[u]].u == u)
  }

  ghost predicate SnapsOk(s: State) {
    forall sn :: sn in s.snaps && s.snaps[sn].logical.Some? ==>
      Snap(sn) in s.fs && s.fs[Snap(sn)] == s.snaps[sn].logical.value
  }

  ghost predicate ProcsOk(s: State) {
    forall pid :: pid in s.procs ==> ProcOk(s, pid)
  }

  ghost predicate DisksOk(s: State) {
    forall u :: u in s.disk ==> DiskOk(s, u)
  }

  ghost predicate PcsOk(s: State) {
    forall id :: id in s.actors ==> PcOk(s, s.actors[id])
  }

  ghost predicate Inv(s: State) {
    && Tokens(s)
    && Ids(s)
    && Rows(s)
    && Names(s)
    && Reapers(s)
    && SnapsOk(s)
    && ProcsOk(s)
    && DisksOk(s)
    && PcsOk(s)
  }
}
