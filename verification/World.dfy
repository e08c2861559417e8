/**
The VM manager as a transition system: durable state (store rows and files), the
in-memory operation table, live processes, and any number of concurrent operations.

Every critical section, file operation and store update is one step, so operations
interleave and crash between any two of them. Copies move one block at a time, so a
copy of a file that changes under it would be torn.

`disk` is the logical content of each VM's disk. It exists only in the model: it is
set when a VM's first disk is complete, follows guest writes and the edits a start
makes before launch, and ends when a delete removes the disk.
*/
module World {
  import opened Options
  import opened OpTable

  type Content = seq<int>

  datatype Path =
    | Hot(name: string)
    | Cold(name: string)
    | HotTmp(name: string, k: nat)
    | ColdTmp(name: string, k: nat)
    | Snap(snap: string)

  predicate Under(p: Path, n: string) {
    !p.Snap? && p.name == n
  }

  type Files = map<Path, Content>

  datatype Row = Row(name: string, state: string, archived: Option<Path>)

  // `attached` says that the process has opened the VM's hot disk.
  datatype Proc = Proc(u: Uuid, name: string, attached: bool)

  // The goroutine that waits for a process and then clears its `running` entry.
  datatype Reaper = Reaper(u: Uuid, exited: bool)

  // A stored snapshot, with the logical content its VM had when the row was written.
  datatype Saved = Saved(u: Uuid, logical: Option<Content>)

  datatype Config = Config(coldOn: bool, archiveOn: bool, base: Content)

  datatype Kind = StartVM | ArchiveStoppedVM | DeleteVM | SaveSnapshot

  datatype Pc =
    // all operations: take the token, wait for a cancelled archive, read the row, give the token back
    | Begin | Wait | Read | End
    // hydrateColdDisk
    | HydrateStat | HydrateClear | HydrateDropStale | HydrateTmp | HydrateCopy | HydrateRename
    | HydrateForget | HydrateDropCold | HydrateCleanup
    // the rest of StartVM
    | Ensure | Fill | Edit | Launch | ResumeLaunch | Register | Settle
    // ArchiveStoppedVM
    | ArchiveCheck | ArchiveStat | ArchiveTmp | ArchiveCopy | ArchiveConfirm | ArchiveDropOld
    | ArchiveRename | ArchiveRecord | ArchiveDropHot | ArchiveCleanup
    // DeleteVM
    | DeleteCheck | DeleteStop | DeleteHot | DeleteRecorded | DeleteCold | DeleteRow
    // SaveSnapshot
    | SnapExists | SnapCheck | SnapResolve | SnapOpen | SnapCopy | SnapCommit

  /**
  One running operation: what it does, where it is, and its local variables.
  `held` says that it has taken its VM's token, `hasRow` that it carries a copy of the row.
  */
  datatype Actor = Actor(
    kind: Kind, pc: Pc, u: Uuid, held: bool, hasRow: bool, row: Row,
    sn: string, src: Path, k: nat, i: nat, arch: nat, pid: nat, resume: bool)

  /** The operation is a cold archive that has recorded itself. */
  predicate IsArchive(a: Actor) {
    a.kind == ArchiveStoppedVM && a.held
  }

  /** The operation is a save. */
  predicate IsSave(a: Actor) {
    a.kind == SaveSnapshot
  }

  /** The operation is a save that has opened its snapshot file. */
  predicate Writing(a: Actor) {
    a.pc.SnapCopy? || a.pc.SnapCommit?
  }

  /** A request that has just arrived. */
  function Request(kind: Kind, u: Uuid, sn: string): Actor {
    Actor(kind, match kind case DeleteVM => Read case SaveSnapshot => SnapExists case _ => Begin,
          u, false, false, Row("", "", None), sn, Snap(""), 0, 0, 0, 0, false)
  }

  datatype State = State(
    cfg: Config,
    rows: map<Uuid, Row>,
    fs: Files,
    disk: map<Uuid, Content>,
    t: Table,
    procs: map<nat, Proc>,
    reapers: map<nat, Reaper>,
    actors: map<nat, Actor>,
    snaps: map<string, Saved>,
    nextId: nat,
    nextPid: nat)

  // What the environment decides in a step: a branch, a temporary name, the data written.
  datatype Pick = Pick(yes: bool, k: nat, data: Content)

  datatype Label =
    | Spawn(kind: Kind, u: Uuid, sn: string)
    | Go(id: nat, pick: Pick)
    | Fail(id: nat)
    | Exit(pid: nat)
    | GuestWrite(pid: nat, data: Content)
    | Reap(pid: nat)
    | SetState(u: Uuid, state: string)
    | Create(u: Uuid, name: string, image: Option<Content>)
    | Crash

  function Init(cfg: Config): State {
    State(cfg, map[], map[], map[], Table(map[], map[], map[], {}), map[], map[], map[], map[], 0, 0)
  }

  // ---------------------------------------------------------------- path resolution

  /** Where `hydrateColdDisk` and `vmDiskPath` look when the hot disk is missing. */
  function ColdPath(cfg: Config, row: Row): Option<Path> {
    if row.archived.Some? then row.archived
    else if cfg.coldOn then Some(Cold(row.name))
    else None
  }

  /** `vmDiskPath`. */
  function VmDiskPath(cfg: Config, fs: Files, row: Row): Result<Path> {
    if Hot(row.name) in fs then Ok(Hot(row.name))
    else
      var cold := ColdPath(cfg, row);
      if cold.Some? && cold.value in fs then Ok(cold.value)
      else if row.archived.Some? then Err
      else Ok(Hot(row.name))
  }

  // ---------------------------------------------------------------- steps inside one VM

  function At(fs: Files, p: Path): Content {
    if p in fs then fs[p] else []
  }

  datatype FileOp =
    | NoFile
    | Write(p: Path, c: Content)
    | Remove(p: Path)
    | Rename(from: Path, to: Path)
    | RemoveHotDir(n: string)
    | RemoveColdDir(n: string)

  function OnFiles(fs: Files, op: FileOp): Files {
    match op
    case NoFile => fs
    case Write(p, c) => fs[p := c]
    case Remove(p) => fs - {p}
    case Rename(from, to) => fs[to := At(fs, from)] - {from}
    case RemoveHotDir(n) => map p | p in fs && !(Under(p, n) && (p.Hot? || p.HotTmp?)) :: fs[p]
    case RemoveColdDir(n) => map p | p in fs && !(Under(p, n) && (p.Cold? || p.ColdTmp?)) :: fs[p]
  }

  // What a step does to the logical content. The VM's first disk is whatever the
  // first completed preparation leaves, and is adopted as its content.
  datatype DiskOp = KeepDisk | SetDisk(c: Content) | AdoptDisk(c: Content) | DropDisk

  function OnDisk(disk: map<Uuid, Content>, u: Uuid, op: DiskOp): map<Uuid, Content> {
    match op
    case KeepDisk => disk
    case SetDisk(c) => disk[u := c]
    case AdoptDisk(c) => if u in disk then disk else disk[u := c]
    case DropDisk => disk - {u}
  }

  /** The result of a step inside one VM: at most one file operation or one store update. */
  datatype Effect = Effect(a: Actor, file: FileOp, archived: Option<Option<Path>>, disk: DiskOp)

  function Goto(a: Actor): Effect {
    Effect(a, NoFile, None, KeepDisk)
  }

  function Touch(a: Actor, op: FileOp): Effect {
    Effect(a, op, None, KeepDisk)
  }

  /** `SetVMArchivedDiskPath`. */
  function Record(rows: map<Uuid, Row>, u: Uuid, path: Option<Path>): map<Uuid, Row> {
    if u in rows then rows[u := rows[u].(archived := path)] else rows
  }

  function Perform(s: State, id: nat, e: Effect): State {
    s.(actors := s.actors[id := e.a],
       fs := OnFiles(s.fs, e.file),
       rows := if e.archived.Some? then Record(s.rows, e.a.u, e.archived.value) else s.rows,
       disk := OnDisk(s.disk, e.a.u, e.disk))
  }

  /** The work is over; the carried row is no longer used, and the token is still held. */
  function Done(a: Actor): Actor {
    a.(pc := End, hasRow := false)
  }

  function Canceled(t: Table, u: Uuid): bool {
    u in t.archives && t.archives[u].canceled
  }

  // hydrateColdDisk

  /** Where `hydrateColdDisk` goes, by which of the two files exist. */
  function HydrateNext(cfg: Config, hot: bool, cold: bool, a: Actor): Actor {
    var path := ColdPath(cfg, a.row);
    if path.None? then a.(pc := Ensure)
    else if hot then a.(pc := if a.row.archived.Some? then HydrateClear else Ensure)
    else if cold then a.(pc := HydrateTmp, src := path.value)
    else if a.row.archived.Some? then Done(a)
    else a.(pc := Ensure)
  }

  function HydrateStatEffect(s: State, a: Actor): Effect {
    var path := ColdPath(s.cfg, a.row);
    Goto(HydrateNext(s.cfg, Hot(a.row.name) in s.fs, path.Some? && path.value in s.fs, a))
  }

  function HydrateClearEffect(a: Actor): Effect {
    Effect(a.(pc := HydrateDropStale), NoFile, Some(None), KeepDisk)
  }

  function HydrateDropStaleEffect(a: Actor, c: Pick): Effect {
    Touch(a.(pc := Ensure), if c.yes && a.row.archived.Some? then Remove(a.row.archived.value) else NoFile)
  }

  function HydrateTmpEffect(a: Actor, c: Pick): Effect {
    Touch(a.(pc := HydrateCopy, k := c.k, i := 0), Write(HotTmp(a.row.name, c.k), []))
  }

  function HydrateCopyEffect(s: State, a: Actor): Effect {
    var from, to := At(s.fs, a.src), HotTmp(a.row.name, a.k);
    if a.i < |from| then Touch(a.(i := a.i + 1), Write(to, At(s.fs, to) + [from[a.i]]))
    else Goto(a.(pc := HydrateRename))
  }

  function HydrateRenameEffect(a: Actor): Effect {
    Touch(a.(pc := HydrateForget), Rename(HotTmp(a.row.name, a.k), Hot(a.row.name)))
  }

  function HydrateForgetEffect(a: Actor): Effect {
    Effect(a.(pc := HydrateDropCold), NoFile, Some(None), KeepDisk)
  }

  function HydrateDropColdEffect(a: Actor, c: Pick): Effect {
    Touch(a.(pc := Ensure), if c.yes then Remove(a.src) else NoFile)
  }

  function HydrateCleanupEffect(a: Actor): Effect {
    Touch(Done(a), Remove(HotTmp(a.row.name, a.k)))
  }

  // ensureDisk, and the edits made before the launch

  function EnsureEffect(s: State, a: Actor): Effect {
    var hot := Hot(a.row.name);
    if hot in s.fs then Effect(a.(pc := Edit), NoFile, None, AdoptDisk(s.fs[hot]))
    else Touch(a.(pc := Fill), Write(hot, []))
  }

  function FillEffect(s: State, a: Actor, c: Pick): Effect {
    // Part of the base image is written, or the last of it.
    if c.yes then Touch(a, Write(Hot(a.row.name), c.data))
    else Effect(a.(pc := Edit), Write(Hot(a.row.name), s.cfg.base), None, AdoptDisk(s.cfg.base))
  }

  function EditEffect(a: Actor, c: Pick): Effect {
    if c.yes then Effect(a, Write(Hot(a.row.name), c.data), None, SetDisk(c.data))
    else Goto(a.(pc := Launch))
  }

  // ArchiveStoppedVM

  function ArchiveCheckEffect(s: State, a: Actor): Effect {
    Goto(if a.u in s.t.running then Done(a) else a.(pc := ArchiveStat))
  }

  function ArchiveStatEffect(s: State, a: Actor): Effect {
    Goto(if Hot(a.row.name) in s.fs then a.(pc := ArchiveTmp) else Done(a))
  }

  function ArchiveTmpEffect(a: Actor, c: Pick): Effect {
    Touch(a.(pc := ArchiveCopy, k := c.k, i := 0), Write(ColdTmp(a.row.name, c.k), []))
  }

  function ArchiveCopyEffect(s: State, a: Actor): Effect {
    var from, to := At(s.fs, Hot(a.row.name)), ColdTmp(a.row.name, a.k);
    if Canceled(s.t, a.u) then Goto(a.(pc := ArchiveCleanup))
    else if a.i < |from| then Touch(a.(i := a.i + 1), Write(to, At(s.fs, to) + [from[a.i]]))
    else Goto(a.(pc := ArchiveConfirm))
  }

  function ArchiveConfirmEffect(s: State, a: Actor): Effect {
    Goto(a.(pc := if Canceled(s.t, a.u) then ArchiveCleanup else ArchiveDropOld))
  }

  function ArchiveDropOldEffect(a: Actor): Effect {
    Touch(a.(pc := ArchiveRename), Remove(Cold(a.row.name)))
  }

  function ArchiveRenameEffect(a: Actor): Effect {
    Touch(a.(pc := ArchiveRecord), Rename(ColdTmp(a.row.name, a.k), Cold(a.row.name)))
  }

  function ArchiveRecordEffect(a: Actor): Effect {
    Effect(a.(pc := ArchiveDropHot), NoFile, Some(Some(Cold(a.row.name))), KeepDisk)
  }

  function ArchiveDropHotEffect(a: Actor): Effect {
    Touch(a.(pc := ArchiveCleanup), Remove(Hot(a.row.name)))
  }

  function ArchiveCleanupEffect(a: Actor): Effect {
    Touch(Done(a), Remove(ColdTmp(a.row.name, a.k)))
  }

  // DeleteVM, up to the row itself

  function DeleteCheckEffect(s: State, a: Actor): Effect {
    Goto(a.(pc := if a.u in s.t.running then DeleteStop else DeleteHot))
  }

  function DeleteStopEffect(a: Actor): Effect {
    Goto(a.(pc := DeleteHot))
  }

  function DeleteHotEffect(a: Actor): Effect {
    Effect(a.(pc := DeleteRecorded), RemoveHotDir(a.row.name), None, DropDisk)
  }

  function DeleteRecordedEffect(a: Actor): Effect {
    Touch(a.(pc := DeleteCold), if a.row.archived.Some? then Remove(a.row.archived.value) else NoFile)
  }

  function DeleteColdEffect(s: State, a: Actor): Effect {
    Touch(a.(pc := DeleteRow), if s.cfg.coldOn then RemoveColdDir(a.row.name) else NoFile)
  }

  // SaveSnapshot, up to the snapshot row

  function SnapCheckEffect(s: State, a: Actor): Effect {
    Goto(if a.u in s.t.running || a.row.state != "stopped" then Done(a) else a.(pc := SnapResolve))
  }

  function SnapResolveEffect(s: State, a: Actor): Effect {
    var src := VmDiskPath(s.cfg, s.fs, a.row);
    Goto(if src.Ok? then a.(pc := SnapOpen, src := src.value) else Done(a))
  }

  function SnapOpenEffect(a: Actor): Effect {
    Touch(a.(pc := SnapCopy, i := 0), Write(Snap(a.sn), []))
  }

  function SnapCopyEffect(s: State, a: Actor): Effect {
    var from := At(s.fs, a.src);
    if a.i < |from| then Touch(a.(i := a.i + 1), Write(Snap(a.sn), At(s.fs, Snap(a.sn)) + [from[a.i]]))
    else Goto(a.(pc := SnapCommit))
  }

  /** The step of an operation that stays inside its VM. */
  function EffectOf(s: State, a: Actor, c: Pick): Effect {
    match a.pc
    case HydrateStat => HydrateStatEffect(s, a)
    case HydrateClear => HydrateClearEffect(a)
    case HydrateDropStale => HydrateDropStaleEffect(a, c)
    case HydrateTmp => HydrateTmpEffect(a, c)
    case HydrateCopy => HydrateCopyEffect(s, a)
    case HydrateRename => HydrateRenameEffect(a)
    case HydrateForget => HydrateForgetEffect(a)
    case HydrateDropCold => HydrateDropColdEffect(a, c)
    case HydrateCleanup => HydrateCleanupEffect(a)
    case Ensure => EnsureEffect(s, a)
    case Fill => FillEffect(s, a, c)
    case Edit => EditEffect(a, c)
    case ArchiveCheck => ArchiveCheckEffect(s, a)
    case ArchiveStat => ArchiveStatEffect(s, a)
    case ArchiveTmp => ArchiveTmpEffect(a, c)
    case ArchiveCopy => ArchiveCopyEffect(s, a)
    case ArchiveConfirm => ArchiveConfirmEffect(s, a)
    case ArchiveDropOld => ArchiveDropOldEffect(a)
    case ArchiveRename => ArchiveRenameEffect(a)
    case ArchiveRecord => ArchiveRecordEffect(a)
    case ArchiveDropHot => ArchiveDropHotEffect(a)
    case ArchiveCleanup => ArchiveCleanupEffect(a)
    case DeleteCheck => DeleteCheckEffect(s, a)
    case DeleteStop => DeleteStopEffect(a)
    case DeleteHot => DeleteHotEffect(a)
    case DeleteRecorded => DeleteRecordedEffect(a)
    case DeleteCold => DeleteColdEffect(s, a)
    case SnapCheck => SnapCheckEffect(s, a)
    case SnapResolve => SnapResolveEffect(s, a)
    case SnapOpen => SnapOpenEffect(a)
    case SnapCopy => SnapCopyEffect(s, a)
    case _ => Goto(a)
  }

  /** Where a holder goes on an error: its deferred cleanup, then the release of the token. */
  function FailTo(a: Actor): Actor {
    match a.pc
    case HydrateCopy => a.(pc := HydrateCleanup)
    case HydrateRename => a.(pc := HydrateCleanup)
    case HydrateForget => a.(pc := HydrateCleanup)
    case ArchiveCopy => a.(pc := ArchiveCleanup)
    case ArchiveConfirm => a.(pc := ArchiveCleanup)
    case ArchiveDropOld => a.(pc := ArchiveCleanup)
    case ArchiveRename => a.(pc := ArchiveCleanup)
    case ArchiveRecord => a.(pc := ArchiveCleanup)
    case ArchiveDropHot => a.(pc := ArchiveCleanup)
    case _ => Done(a)
  }

  /** Steps that return no error: cleanups, releases, and the registration of a launched process. */
  predicate CanFail(pc: Pc) {
    !(pc.HydrateDropStale? || pc.HydrateDropCold? || pc.HydrateCleanup? || pc.Register? || pc.ArchiveCleanup? || pc.End?)
  }

  // ---------------------------------------------------------------- the other steps

  function Become(s: State, id: nat, a: Actor): State {
    s.(actors := s.actors[id := a])
  }

  function Leave(s: State, id: nat): State {
    s.(actors := s.actors - {id})
  }

  function TryBegin(t: Table, a: Actor, id: nat): Begun {
    match a.kind
    case StartVM => BeginStart(t, a.u, id)
    case ArchiveStoppedVM => BeginArchive(t, a.u, id)
    case _ => BeginOp(t, a.u, id)
  }

  /** Where an operation goes on with the token in hand. */
  function WithToken(a: Actor): Actor {
    a.(held := true, pc := match a.kind case DeleteVM => DeleteCheck case SaveSnapshot => SnapCheck case _ => Read)
  }

  function AfterBegin(s: State, id: nat, a: Actor, b: Begun): State {
    match b.outcome
    case Busy => Leave(s, id)
    case WaitFor(arch) => Become(s, id, a.(pc := Wait, arch := arch)).(t := b.t)
    case Granted => Become(s, id, WithToken(a)).(t := b.t)
  }

  /** Taking the token: the critical section of the operation's `begin` function. */
  function BeginStep(s: State, id: nat, a: Actor): State {
    AfterBegin(s, id, a, TryBegin(s.t, a, id))
  }

  /** Reading the row under the token: a start or an archive. */
  function ReadHeld(s: State, a: Actor, c: Pick): Actor {
    if a.u !in s.rows then Done(a)
    else
      var b := a.(row := s.rows[a.u], hasRow := true);
      if a.kind == ArchiveStoppedVM then
        // `c.yes`: the VM has been stopped for long enough.
        if b.row.state == "stopped" && c.yes then b.(pc := ArchiveCheck) else Done(a)
      else b.(pc := if b.row.state == "sleeping" then ResumeLaunch else HydrateStat)
  }

  /** Reading the row before the token is taken: a delete or a save. */
  function ReadEarly(s: State, id: nat, a: Actor): State {
    if a.u in s.rows then Become(s, id, a.(row := s.rows[a.u], hasRow := true, pc := Begin)) else Leave(s, id)
  }

  /** Giving the token back. */
  function EndStep(s: State, id: nat, a: Actor): State {
    Leave(s, id).(t := if a.kind == ArchiveStoppedVM then EndArchive(s.t, a.u, id) else EndOp(s.t, a.u))
  }

  function LaunchStep(s: State, id: nat, a: Actor, resume: bool): State {
    Become(s, id, a.(pc := Register, pid := s.nextPid, resume := resume))
      .(procs := s.procs[s.nextPid := Proc(a.u, a.row.name, !resume)], nextPid := s.nextPid + 1)
  }

  function RegisterStep(s: State, id: nat, a: Actor): State {
    Become(s, id, a.(pc := Settle))
      .(t := s.t.(running := s.t.running[a.u := a.pid]), reapers := s.reapers[a.pid := Reaper(a.u, false)])
  }

  function AttachStep(s: State, id: nat, a: Actor): State
    requires Hot(a.row.name) in s.fs
  {
    Become(s, id, Done(a)).(procs := s.procs[a.pid := Proc(a.u, a.row.name, true)],
                            disk := OnDisk(s.disk, a.u, AdoptDisk(s.fs[Hot(a.row.name)])))
  }

  /** Loading a sleep snapshot opens the hot disk. */
  function SettleStep(s: State, id: nat, a: Actor): State {
    if a.resume && a.pid in s.procs && Hot(a.row.name) in s.fs then AttachStep(s, id, a) else Become(s, id, Done(a))
  }

  function DeleteRowStep(s: State, id: nat, a: Actor): State {
    Become(s, id, Done(a)).(rows := s.rows - {a.u})
  }

  function SnapExistsStep(s: State, id: nat, a: Actor): State {
    if a.sn in s.snaps then Leave(s, id) else Become(s, id, a.(pc := Read))
  }

  function SnapCommitStep(s: State, id: nat, a: Actor): State {
    Become(s, id, Done(a))
      .(snaps := s.snaps[a.sn := Saved(a.u, if a.u in s.disk then Some(s.disk[a.u]) else None)])
  }

  /** When the next step of an operation can be taken; otherwise it waits or fails. */
  predicate GoEnabled(s: State, a: Actor, c: Pick) {
    match a.pc
    case Begin => a.kind == ArchiveStoppedVM ==> s.cfg.coldOn && s.cfg.archiveOn
    case Wait => a.arch in s.t.closed
    case HydrateClear => a.u in s.rows
    case HydrateTmp => HotTmp(a.row.name, c.k) !in s.fs
    case HydrateRename => HotTmp(a.row.name, a.k) in s.fs
    case HydrateForget => a.u in s.rows
    case ArchiveTmp => ColdTmp(a.row.name, c.k) !in s.fs
    case ArchiveRename => ColdTmp(a.row.name, a.k) in s.fs
    case ArchiveRecord => a.u in s.rows
    case DeleteStop => a.u !in s.t.running
    case DeleteRow => a.u in s.rows
    case SnapOpen => a.src in s.fs
    case SnapCommit => a.sn !in s.snaps
    case _ => true
  }

  function GoStep(s: State, id: nat, c: Pick): State
    requires id in s.actors
  {
    var a := s.actors[id];
    match a.pc
    case Begin => BeginStep(s, id, a)
    case Wait => Become(s, id, a.(pc := Begin))
    case Read => if a.held then Become(s, id, ReadHeld(s, a, c)) else ReadEarly(s, id, a)
    case End => EndStep(s, id, a)
    case Launch => LaunchStep(s, id, a, false)
    case ResumeLaunch => LaunchStep(s, id, a, true)
    case Register => RegisterStep(s, id, a)
    case Settle => SettleStep(s, id, a)
    case DeleteRow => DeleteRowStep(s, id, a)
    case SnapExists => SnapExistsStep(s, id, a)
    case SnapCommit => SnapCommitStep(s, id, a)
    case _ => Perform(s, id, EffectOf(s, a, c))
  }

  /** A UUID that nothing in the state mentions. */
  predicate Fresh(s: State, u: Uuid) {
    && u !in s.rows && u !in s.disk && u !in s.t.owner && u !in s.t.running && u !in s.t.archives
    && (forall id :: id in s.actors ==> s.actors[id].u != u)
    && (forall pid :: pid in s.procs ==> s.procs[pid].u != u)
    && (forall pid :: pid in s.reapers ==> s.reapers[pid].u != u)
  }

  predicate Enabled(s: State, l: Label) {
    match l
    case Spawn(_, _, _) => true
    case Go(id, c) => id in s.actors && GoEnabled(s, s.actors[id], c)
    case Fail(id) => id in s.actors && CanFail(s.actors[id].pc)
    case Exit(pid) => pid in s.procs
    case GuestWrite(pid, _) => pid in s.procs && s.procs[pid].attached
    case Reap(pid) => pid in s.reapers && pid !in s.procs
    case SetState(u, _) => u in s.rows
    case Create(u, name, _) => Fresh(s, u) && forall v :: v in s.rows ==> s.rows[v].name != name
    case Crash => true
  }

  function SpawnStep(s: State, a: Actor): State {
    s.(actors := s.actors[s.nextId := a], nextId := s.nextId + 1)
  }

  function GuestWriteStep(s: State, pid: nat, data: Content): State
    requires pid in s.procs
  {
    s.(fs := s.fs[Hot(s.procs[pid].name) := data], disk := s.disk[s.procs[pid].u := data])
  }

  /** The reaper has seen its process exit. */
  function SeeExit(s: State, pid: nat): State
    requires pid in s.reapers
  {
    s.(reapers := s.reapers[pid := s.reapers[pid].(exited := true)])
  }

  /** The reaper deletes the `running` entry of its VM, whoever's it is. */
  function DropEntry(s: State, pid: nat): State
    requires pid in s.reapers
  {
    s.(reapers := s.reapers - {pid}, t := s.t.(running := s.t.running - {s.reapers[pid].u}))
  }

  function SetStateStep(s: State, u: Uuid, state: string): State
    requires u in s.rows
  {
    s.(rows := s.rows[u := s.rows[u].(state := state)])
  }

  /** `CreateVM`, or `RestoreSnapshot` as one step when there is an image. */
  function CreateStep(s: State, u: Uuid, name: string, image: Option<Content>): State {
    var s1 := s.(rows := s.rows[u := Row(name, "stopped", None)]);
    if image.Some? then s1.(fs := s.fs[Hot(name) := image.value], disk := s.disk[u := image.value]) else s1
  }

  /** The daemon dies: its memory and its processes are gone, rows and files stay. */
  function CrashStep(s: State): State {
    s.(t := Table(map[], map[], map[], {}), procs := map[], reapers := map[], actors := map[])
  }

  function Apply(s: State, l: Label): State
    requires Enabled(s, l)
  {
    match l
    case Spawn(kind, u, sn) => SpawnStep(s, Request(kind, u, sn))
    case Go(id, c) => GoStep(s, id, c)
    case Fail(id) => if s.actors[id].held then Become(s, id, FailTo(s.actors[id])) else Leave(s, id)
    case Exit(pid) => s.(procs := s.procs - {pid})
    case GuestWrite(pid, data) => GuestWriteStep(s, pid, data)
    case Reap(pid) => if s.reapers[pid].exited then DropEntry(s, pid) else SeeExit(s, pid)
    case SetState(u, state) => SetStateStep(s, u, state)
    case Create(u, name, image) => CreateStep(s, u, name, image)
    case Crash => CrashStep(s)
  }

  // ---------------------------------------------------------------- runs

  predicate Executable(s: State, ls: seq<Label>)
    decreases |ls|
  {
    ls == [] || (Enabled(s, ls[0]) && Executable(Apply(s, ls[0]), ls[1..]))
  }

  function Run(s: State, ls: seq<Label>): State
    requires Executable(s, ls)
    decreases |ls|
  {
    if ls == [] then s else Run(Apply(s, ls[0]), ls[1..])
  }

  // ---------------------------------------------------------------- what callers have to mind

  /** Archives can run at all. */
  predicate Active(cfg: Config) {
    cfg.coldOn && cfg.archiveOn
  }

  /** The delete carries a row and can still remove a file of its name. */
  predicate Threat(cfg: Config, a: Actor) {
    && a.kind == DeleteVM && a.hasRow
    && match a.pc
       case Begin => true
       case Wait => true
       case DeleteCheck => true
       case DeleteStop => true
       case DeleteHot => true
       case DeleteRecorded => Active(cfg)
       case DeleteCold => Active(cfg)
       case _ => false
  }

  /** A create avoids the names that deletes in flight carry and can still remove the files of. */
  predicate Careful(s: State, l: Label) {
    l.Create? ==> forall id :: id in s.actors && Threat(s.cfg, s.actors[id]) ==> s.actors[id].row.name != l.name
  }

  /** A snapshot may be opened: it is not recorded, and no other save has it open. */
  predicate MayOpen(s: State, id: nat)
    requires id in s.actors
  {
    var sn := s.actors[id].sn;
    sn !in s.snaps && forall j :: j in s.actors && j != id && Writing(s.actors[j]) ==> s.actors[j].sn != sn
  }

  /** A save that is about to open its snapshot may open it. */
  predicate Guarded(s: State, id: nat)
    requires id in s.actors
  {
    s.actors[id].pc.SnapOpen? ==> MayOpen(s, id)
  }

  predicate Tidy(s: State, l: Label) {
    l.Go? && l.id in s.actors ==> Guarded(s, l.id)
  }

  /** Every create is careful; with `tidy`, a save opens only snapshots that it may open. */
  predicate CarefulRun(tidy: bool, s: State, ls: seq<Label>)
    requires Executable(s, ls)
    decreases |ls|
  {
    ls == [] || (Careful(s, ls[0]) && (tidy ==> Tidy(s, ls[0])) && CarefulRun(tidy, Apply(s, ls[0]), ls[1..]))
  }
}
