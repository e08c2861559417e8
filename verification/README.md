# Firedoze: a verified model

Firedoze runs Firecracker VMs on one host. Its daemon keeps VM disks in a hot and a cold
place, lets operations on one VM exclude each other, keeps a WireGuard device and a Caddy
route table in step with its store, and hands out addresses. This project models that
logic in Dafny and proves what it is meant to guarantee.

Three parts:

1. **The VM manager as a transition system**. Any number of starts, archives, deletes and
   saves run at once. Every critical section, file operation and store update is one step,
   copies move one block at a time, every step can fail, and the daemon can crash between
   any two steps. Stops, sleeps and guest shutdowns are process exits; the state string of a
   row can change at any time. `World.disk` is the logical content of each VM's disk.
   - `OpTable` holds the maps under the manager's mutex, `World` the steps and runs.
   - *Every run*, whatever callers do (`Reached`): `EveryRun` and `Shapes` prove what tokens,
     archives, reapers, processes and program counters keep; `Progress` that no token is held
     for ever; `Handshake` what follows for the token, the archive's `done` channel and the
     processes.
   - *Careful runs* (`Reachable(false, s)`): no VM is created under a name that a delete in
     flight carries and whose files it can still remove (`World.Careful`). *Tidy* ones
     (`Reachable(true, s)`): also, a save opens only a snapshot that is not recorded and that
     no other save has open (`World.MayOpen`). `Invariant` says what holds at each program
     counter; `Frames`, `InsideSteps`, `TableSteps`, `EnvSteps`, `LaunchSteps` and `Safety` prove
     that each step keeps it; `Erasure`, `MutedSaves` and `CarefulRuns` prove it for all careful
     runs, by looking at each state without the saves and without the deletes that can do no
     more harm; `Guarantees` is what follows for the owner of a VM.
   - `Futures`, `StaleDeletes`, `HollowSaves` and `Limits` prove that both conditions are exact, and
     `LimitRuns` that runs do come to states where they matter.
2. **Reconcilers and indexes against a simple meaning**: the WireGuard peer diff against
   the device's routing table (`PeerConfig`, `PeerDiff`, `PeerReload`), Caddy's route table
   against the wake proxy's lookup (`RouteStore`, `Routing`), globs against SQL LIKE
   (`GlobLike`), sparse copies against plain ones (`SparseCopy`), the idle monitor against the
   client's heartbeat (`IdleCheck`).
3. **Allocators, printers and parsers**: peer addresses (`PeerAlloc`), VM address pairs
   (`PrivateIP`, `FirstUsable`), memory hotplug (`Memory`), shell quoting (`ShellQuote`), route
   tokens (`RouteToken`), snapshot bundles (`Bundle`). `Options`, `Powers` and `Text` hold what
   these share.

Some properties that one would expect turn out to need a condition. Each is stated as an
exact one:

- No disk is lost, however the run goes on, exactly when each create avoids the names that
  deletes in flight carry and can still remove the files of (`Limits.CreateExactly`); every
  snapshot stays exact exactly when each save opens only what it may open, or all under its
  name is empty (`Limits.OpenExactly`). Nothing in the code ensures either (`LimitRuns`).
- The heartbeat keeps a session's VM awake exactly when interval, delay and the last
  999,999 nanoseconds that the store drops fit in the idle timeout.
- A sparse copy is exact unless seek support is lost after the first segment and before
  the last seek.
- The default DNS address stays out of the VM pairs exactly when the subnet text is
  canonical (or names the last IPv6 address there is), and IPv4 pairs are /31 networks
  exactly when the IPv4 subnet text has an even address.
- An automatic peer address is rejected again exactly when it is an IPv4-mapped one,
  which takes 2^32 - 1 addresses in use.
- An exported snapshot can be imported again exactly when its manifest is at most 1 MiB.
- The address-bit computation is exact exactly up to 2^44 - 2^19 MiB of hotplug memory.

## Model

| member | source | states |
|---|---|---|
| OpTable.BeginIsExclusive | internal/firecracker/manager.go:621-712 | each begin succeeds exactly when the token is free (and, for a start, no process is registered), and leaves its caller the holder with no archive recorded |
| OpTable.BeginsKeepTable | internal/firecracker/manager.go:621-699 | no begin separates a recorded archive from its token |
| OpTable.EndsKeepTable | internal/firecracker/manager.go:701-711 | nor does an end by the holder; an archive's end clears both entries and closes `done` |
| OpTable.Locks.BeginVMOperationCancelingColdArchive | internal/firecracker/manager.go:621-647 | granted exactly when nobody holds the token, and then the caller is its only holder with no archive recorded; told to wait exactly for the archive that holds it, which is now cancelled and has yet to close `done`; else nothing changes; recorded archives keep their tokens |
| OpTable.Locks.BeginStartOperationCancelingColdArchive | internal/firecracker/manager.go:649-679 | the same for a start, granted or told to wait only when no process of the VM is registered |
| OpTable.Locks.BeginColdArchiveOperation | internal/firecracker/manager.go:681-700 | granted exactly when nobody holds the token, and then token and record name this archive, not cancelled; else nothing changes |
| OpTable.Locks.EndVMOperation | internal/firecracker/manager.go:615-619 | called by its holder, frees that token for the next begin and no other, and leaves every archive tied to its token |
| OpTable.Locks.EndColdArchive | internal/firecracker/manager.go:701-711 | called by the recorded archive, frees its token and record together and no other, and closes its `done`, open until then |
| OpTable.Locks.Register | internal/firecracker/manager.go:1368-1370 | called by the holder of a VM without a registered process, gives the entry to the new process; every entry has its reaper |
| OpTable.Locks.Reap | internal/firecracker/manager.go:1397-1399 | the entry deleted by UUID is the one of the reaper's own process; every other process stays registered |
| Handshake.CallersMeetLocks | internal/firecracker/manager.go:714-718 | in every run, wherever an operation calls one of these sections, what the section requires of its caller holds |
| EveryRun.StepSound | internal/firecracker/manager.go:605-811 | whatever callers do, every step keeps tokens, recorded archives, reapers and processes in order, and nothing of a VM runs while its holder prepares, copies or removes its disk |
| EveryRun.RunSound | internal/firecracker/manager.go:605-811 | so does every run |
| Shapes.RunShapes | internal/firecracker/cold_storage.go:80-236 | in every run each operation stays in its own code, no copy reads the file it writes, and a host that cannot archive has no cold file and no recorded archive |
| Progress.HolderFinishes | internal/firecracker/manager.go:714-718 | from every state of every run a holder can come to its end and release its token by its own steps, failing only where its next step is refused, and for a delete by its VM's exit and reaper |
| InsideSteps.HydrateCopyGood | internal/firecracker/cold_storage.go:219-221 | a block copied keeps the temporary file a prefix of the archive |
| InsideSteps.FailGood | internal/firecracker/cold_storage.go:126-151 | an error at any step leads to the deferred cleanup with nothing lost |
| Frames.HolderStep | internal/firecracker/cold_storage.go:80-236 | a step that stays in its holder's VM disturbs no other operation, disk, snapshot or process |
| Safety.GoKeeps | internal/firecracker/manager.go:551-811 | every step of every operation keeps what each program counter relies on, if a save opens only what it may open |
| CarefulRuns.StepSafe | internal/firecracker/manager.go:551-811 | every careful step, of an operation, a guest, a reaper or the environment, and a crash, keeps the state without saves and harmless deletes in that order |
| CarefulRuns.RunSafe | internal/firecracker/manager.go:551-811 | so does every careful run |
| Guarantees.NoDiskLost | internal/firecracker/manager.go:1502-1525 | in every state of every careful run a VM with a disk resolves to a file with exactly its content |
| Guarantees.ContentKept | internal/firecracker/cold_storage.go:80-236 | no step but a guest write, a start's own edit or a delete's removal changes a VM's content |
| Guarantees.ContentSurvives | internal/firecracker/cold_storage.go:80-236 | over any interleaving of archives, hydrations, saves, stops, failures and crashes a VM resolves to the content it had |
| Guarantees.BootFindsDisk | internal/firecracker/manager.go:736-759 | from its first edit to its launch a start has the VM's content at the hot path and no archive recorded |
| Guarantees.StartKeepsContent | internal/firecracker/manager.go:736-745 | whatever archives or crashes came before, a start comes to its edits with the content the VM had and an empty archived path, or not at all |
| Guarantees.OnlyEditsTouch | internal/firecracker/manager.go:750-811 | in every run, from there to the launch only the edits of this start touch the content |
| Guarantees.LaunchKeepsEdits | internal/firecracker/manager.go:745-811 | so it launches with that content as the last of its own edits has left it |
| Guarantees.NeverRebased | internal/firecracker/manager.go:1537-1571 | `ensureDisk` leaves a VM that has a disk alone; it never writes a base image over or beside it |
| Guarantees.GuestSeesContent | internal/firecracker/manager.go:857-891 | a booted or resumed guest's disk is the VM's content |
| Guarantees.LiveDiskUntouched | internal/firecracker/cold_storage.go:99-145 | while a process is live, no step but its own guest's writes changes a file of its VM |
| Guarantees.CopiesOnlyWhenStopped | internal/firecracker/manager.go:1024-1046 | in every run, while a disk is copied, moved or removed its VM has no process |
| Guarantees.NoNamesakeRuns | internal/firecracker/manager.go:1024-1046 | in careful runs, nor has any VM of that name, unless the operation's VM is gone and it can do no more harm |
| Guarantees.SnapshotExact | internal/firecracker/manager.go:1036-1060 | in tidy runs a recorded snapshot holds exactly the content its VM had when it was recorded |
| Guarantees.SaveRecordsContent | internal/firecracker/manager.go:1002-1064 | a save that succeeds has recorded exactly the VM's present content |
| Guarantees.SnapshotSurvives | internal/firecracker/manager.go:1002-1064 | no later run alters it |
| Guarantees.DeleteLeavesNothing | internal/firecracker/manager.go:551-593 | a delete that succeeds leaves no copy at the hot, recorded or default cold path |
| Handshake.ArchiveHoldsToken | internal/firecracker/manager.go:681-700 | a recorded archive is at work, holds its VM's token, and its `done` is open |
| Handshake.OnlyHolderReleases | internal/firecracker/manager.go:605-619 | a token is released only by the last step of its holder, or lost in a crash |
| Handshake.DoneClosedOnce | internal/firecracker/manager.go:701-711 | `done` is closed only by its archive's last step, once, in the section that clears both entries |
| Handshake.LastStepCloses | internal/firecracker/manager.go:701-711 | and that step always closes it |
| Handshake.StaysClosed | internal/firecracker/manager.go:621-647 | a closed `done` stays closed |
| Handshake.NoLostWakeup | internal/firecracker/manager.go:630-640 | a waiter is woken or its archive is still at work |
| Handshake.SoleHolder | internal/firecracker/manager.go:605-712 | a holder holds its token alone |
| Handshake.BeginExclusive | internal/firecracker/manager.go:621-700 | a begin that succeeds found no holder and no archive, and leaves its caller sole holder |
| Handshake.OneProcess | internal/firecracker/manager.go:1318-1370 | in every run, at most one live process per UUID |
| Handshake.ReaperDropsOwnEntry | internal/firecracker/manager.go:1372-1400 | in every run the reaper's unconditional delete removes the entry of its own launch, when no process of the VM is live |
| Limits.CreateExactly | internal/firecracker/manager.go:159-211 | for every careful state and every create, with an image or without: no continuation loses a disk exactly when no delete in flight carries the name and can still remove a file of it |
| Limits.CarelessLoses | internal/firecracker/manager.go:551-593 | from every such delete, at whatever point it is, some continuation takes the disk of the VM created under its name |
| Limits.OpenExactly | internal/firecracker/manager.go:1009-1060 | for every tidy state: no continuation spoils a snapshot exactly when the one a save opens is not recorded and not open, or its source and all that is recorded or being saved under that name are empty |
| HollowSaves.OpenHarmless | internal/firecracker/manager.go:1009-1046 | a second save of an empty disk, where all under its name is empty, leaves a state as good as the one in which nobody has opened that snapshot |
| HollowSaves.HarmlessRun | internal/firecracker/manager.go:1009-1060 | and every careful and tidy run keeps it so, whatever such saves, and all other operations, do |
| LimitRuns.NameReuseLosesDisk | internal/firecracker/manager.go:551-572 | a careful run from an empty host comes to a create that can lose a disk |
| LimitRuns.SecondSaveSpoilsSnapshot | internal/firecracker/manager.go:1009-1046 | a tidy run from an empty host comes to a save that can spoil a snapshot |
| PeerConfig.Validate | internal/config/config.go:58-109 | succeeds exactly for complete sections whose peers have different names, key texts and networks |
| PeerDiff.SameSorted | internal/host/wireguard.go:207-228 | sorted network lists are equal exactly when the lists are permutations |
| PeerDiff.SameStringSet | internal/host/wireguard.go:218-228 | compares the sorted lists element by element |
| PeerDiff.RuntimePeersByKey | internal/host/wireguard.go:186-216 | succeeds exactly when every text parses and no two peers have one key, and then indexes the list |
| PeerDiff.PickRemovals | internal/host/wireguard.go:153-162 | each key that is gone is removed once, in whatever order the map is walked |
| PeerDiff.PickUpdates | internal/host/wireguard.go:163-183 | each new or changed key is replaced, with exact counts, in whatever order the map is walked |
| PeerDiff.DiffReconciles | internal/host/wireguard.go:141-184 | every such sequence of actions turns the old device into the new one |
| PeerReload.WireGuardPeerDiff | internal/host/wireguard.go:141-184 | the diff takes any device that has the old list to one that has the new list, counts added, changed and removed keys exactly, and is empty when nothing changed |
| PeerReload.DeviceUnique | internal/host/wireguard.go:102-132 | a peer list leaves nothing about the device open |
| PeerReload.StartupDevice | internal/host/wireguard.go:62-93 | the full configuration at startup gives a device that has the list |
| PeerReload.Watcher.Reload | cmd/firedozed/main.go:478-493 | a reload either fails and leaves the device alone, or the device has the new list |
| PeerReload.Watcher.Tick | cmd/firedozed/main.go:455-472 | a tick that starts from convertible peers leaves the device having the peers of `current`, changes only the peers of `current`, and only for a new signature |
| PeerReload.Watcher.Watch | cmd/firedozed/main.go:443-474 | so does any run of ticks |
| PeerAlloc.NextPeerAllowedIP | internal/wireguard/config.go:106-152 | the least address that neither the host nor a /128 peer uses; fails exactly when none of the offsets is free |
| PeerAlloc.NewPeerSetup | internal/wireguard/config.go:49-104 | an accepted peer keeps the configuration valid; a fresh name and key are accepted exactly when an address can be chosen, which below 2^32 - 1 addresses in use is exactly when one is free |
| PeerAlloc.ChosenUnclaimed | internal/wireguard/config.go:77-88 | a chosen address never trips the duplicate check |
| PeerAlloc.MappedFarOut | internal/wireguard/config.go:137-150 | a chosen address is IPv4-mapped only with 2^32 - 1 addresses in use |
| PrivateIP.NextPrivateIP | internal/firecracker/manager.go:1159-1193 | the least free odd offset from 3 up; fails exactly when the subnet is exhausted; terminates |
| PrivateIP.Addresses.Create | internal/firecracker/manager.go:159-211 | a create gives the least free address; all addresses stay distinct guest addresses of the subnet |
| PrivateIP.Addresses.Delete | internal/firecracker/manager.go:583-588 | a delete frees exactly its own |
| PrivateIP.PairsApart | internal/firecracker/manager.go:1179-1192 | two VMs' pairs share no IPv6 address, each is an aligned /127 inside the subnet |
| PrivateIP.Pairs4Apart | internal/firecracker/manager.go:1216-1260 | the derived IPv4 pairs share no address and lie in the IPv4 subnet |
| PrivateIP.Pair4Aligned | internal/firecracker/manager.go:1239-1260 | an IPv4 pair is an aligned /31 exactly when the subnet text's address is even |
| PrivateIP.CanonicalEven | internal/firecracker/manager.go:1239-1246 | canonical IPv4 subnets with room for a pair are even |
| PrivateIP.SmallSubnetNoPair | internal/firecracker/manager.go:1255-1258 | a single IPv4 address has no room for a pair |
| FirstUsable.IncrementBytes | internal/config/config.go:468-473 | the carry loop on the bytes |
| FirstUsable.IncIsPlusOne | internal/config/config.go:468-473 | adds one to the number the bytes spell, and wraps at the end |
| FirstUsable.FirstUsable6 | internal/config/config.go:454-479 | the next IPv6 address, if it is in the subnet |
| FirstUsable.FirstUsable4 | internal/config/config.go:460-479 | for IPv4 only the last byte counts up, without carry |
| FirstUsable.CanonicalNoCarry | internal/config/config.go:460-464 | which makes no difference for canonical subnets with more than one address |
| FirstUsable.DnsStaysFree | internal/config/config.go:295-301 | when the default DNS address can be part of a VM's pair |
| GlobLike.GlobToLike | internal/store/vms.go:116-132 | the loop computes the translation |
| GlobLike.LikeIsGlob | internal/store/vms.go:116-132 | the translation matches what the glob matches, for every pattern, name and character equality |
| GlobLike.WellEscaped | internal/store/vms.go:116-132 | every escape in it is well formed |
| GlobLike.ListVMsMatching | internal/store/vms.go:79-113 | lists each row whose name some pattern matches, or every row without patterns, once and in the query's order |
| SparseCopy.CopyRange | internal/firecracker/manager.go:1683-1685 | a buffered copy of a range is one write of it |
| SparseCopy.CopyFileDense | internal/firecracker/manager.go:1695-1701 | writes the whole source at the current position |
| SparseCopy.CopySparseFile | internal/firecracker/manager.go:1640-1689 | the copy into an empty file is the source, for every layout, exactly when seek support lasts or is missing from the start |
| SparseCopy.Fallback | internal/firecracker/manager.go:1658-1668 | a dense copy behind a copied part is never the source |
| SparseCopy.SupportLostMidway | internal/firecracker/manager.go:1658-1668 | an input for which the condition fails |
| RouteStore.Store.CreateVM | internal/store/vms.go:44-73 | succeeds exactly for a fresh valid name that no route has; VM and route names stay disjoint |
| RouteStore.Store.CreateRoute | internal/store/routes.go:21-52 | succeeds exactly for a fresh valid name that no VM has, an existing VM and a free default; names stay disjoint |
| RouteStore.Store.DeleteRoute | internal/store/routes.go:96-109 | removes that route only |
| RouteStore.Store.DeleteRoutesForVM | internal/store/routes.go:111-114 | removes that VM's routes only |
| RouteStore.Store.DeleteVM | internal/store/migrations/000001_initial_schema.up.sql:44-53 | the routes go with their VM |
| RouteStore.Store.Protect | internal/store/route_protections.go:12-20 | adds the normalised hostname; protected hosts stay in lower case |
| RouteStore.Store.Unprotect | internal/store/route_protections.go:22-26 | removes it again |
| RouteStore.RouteNameShape | internal/api/server.go:937-945 | a valid route name is nonempty, in lower case and does not end with a dot |
| Routing.CaddyConfig | internal/proxy/caddy.go:77-118 | the table and the redirected hosts; the agreement below holds of it for every store state |
| Routing.CaddyAgreesWithWake | internal/proxy/wake.go:189-214 | off the base domain and the auth path, Caddy's first match is the wake proxy exactly when the host is protected or the wake proxy finds a public VM with an address |
| IdleCheck.Check | internal/firecracker/idle.go:54-78 | puts to sleep exactly the running VMs whose activity is as old as their threshold |
| IdleCheck.NeverSlept | internal/firecracker/idle.go:54-99 | within the margin no check selects the VM of an open session, whenever it reads the list and however old its tick is |
| IdleCheck.HeartbeatExact | cmd/firedoze/main.go:1455-1510 | the delays for which that holds are exactly those within the margin |
| IdleCheck.IntervalIsQuarter | cmd/firedoze/main.go:1500-1510 | the heartbeat comes four times in the idle timeout, but at most once a second |
| IdleCheck.MarginExists | cmd/firedoze/main.go:1500-1510 | from two seconds on there is room for 0.9 seconds of delay, with one second for none |
| IdleCheck.DelayBelowDifferenceFails | internal/store/vms.go:220-237 | a delay below threshold less interval for which it fails |
| Memory.RequestedLeast | internal/firecracker/manager.go:370-386 | the request is the least whole number of slots that covers the clamped target, within the range |
| Memory.CapNeverBinds | internal/firecracker/manager.go:384-386 | the final cap never changes it |
| Memory.RequestedMonotone | internal/firecracker/manager.go:370-386 | a larger target never asks for less |
| Memory.RequiredBitsExact | internal/firecracker/manager.go:2065-2071 | the least number of address bits, exactly up to where 64 bits overflow |
| Memory.Len64Least | internal/firecracker/manager.go:2070 | `bits.Len64` is the least sufficient number of bits |
| Memory.ConfigTotals | internal/firecracker/manager.go:2009-2027 | boot and hotplug memory together are the maximum |
| Memory.ResizeNeedsHotplug | internal/firecracker/manager.go:387-416 | a resize goes exactly to running VMs configured with hotplug, within what was configured |
| ShellQuote.ShellJoin | cmd/firedoze/main.go:1850-1856 | the joined line splits into the arguments |
| ShellQuote.SplitJoin | cmd/firedoze/main.go:1850-1871 | for every argument list a POSIX shell splits the joined line into exactly that list |
| ShellQuote.ScanQuote | cmd/firedoze/main.go:1858-1871 | a quoted argument is read as one word, whatever follows it |
| ShellQuote.NestedProxyRecovered | cmd/firedoze/main.go:1803-1831 | splitting the transport command and then the proxy command in it recovers both |
| RouteToken.DecodeEncode | internal/routeauth/auth.go:230-240 | unpadded base64url decodes to what was encoded, and contains no dot |
| RouteToken.Vectors | internal/routeauth/auth.go:230-232 | the encoding is the base64url of RFC 4648, on vectors from its section 10 and on the two digits that differ from plain base64 |
| RouteToken.ParseFormat | internal/routeauth/auth.go:144-168 | decimal numbers of 64 bits parse to what was printed |
| RouteToken.TokenParts | internal/routeauth/auth.go:138-158 | a token splits into exactly its three parts |
| RouteToken.TokenRoundTrip | internal/routeauth/auth.go:138-180 | a token validates for its own host exactly until its expiry in whole seconds, and never for another host |
| Bundle.CleanNameSafe | internal/firecracker/snapshot_bundle.go:283-293 | exactly the names that stay below the bundle are accepted |
| Bundle.UnpackSnapshotBundle | internal/firecracker/snapshot_bundle.go:175-268 | accepts exactly the sequences with one good manifest and one disk of the stated size, besides directories |
| Bundle.OrderIndependent | internal/firecracker/snapshot_bundle.go:175-268 | acceptance and result do not depend on the order of the entries |
| Bundle.ImportSnapshot | internal/firecracker/snapshot_bundle.go:112-173 | a fresh name and an acceptable bundle give a snapshot with the manifest's source VM and image ids and the bundle's disk |
| Bundle.ExportAcceptable | internal/firecracker/snapshot_bundle.go:42-110 | an export is acceptable exactly when its manifest is within the limit |
| Bundle.ExportImport | internal/firecracker/snapshot_bundle.go:42-173 | and comes back with the same disk, source VM and image ids |

## Left out

- Limits.OpenExactly: is stated for a snapshot name whose recorded or open snapshots are of VMs with a disk, and for an empty source of such a VM, because no content is claimed for the others.
- Agreement between the state string of a row and the live process: stop, sleep and the reaper write it without the token, so the model lets it change at any time.
- A restore of a snapshot inside the interleavings: it writes the hot path by name without a token; `World.CreateStep` takes it as one step.
- A first disk that is interrupted half way: content counts once a VM's first disk is complete.
- Processes that outlive the daemon: a crash ends them, as the startup reconciliation presumes.
- A recorded archive outside the configured cold directory: the configuration is fixed, so a recorded path is the VM's path in that directory.
- An import beside a save that runs: it renames into the snapshot's directory and removes it again on an error (`internal/firecracker/snapshot_bundle.go`, lines 149 to 168); `Bundle.ImportSnapshot` takes it alone.
- Deleting snapshots, rebooting (a stop and then a start), and the sleep files of a VM.
- How long an archive, a wait or a stop takes: timeouts and cancellations are failures that can happen at any step.
- Tap names, MAC addresses, cgroups, the Firecracker API, netlink, iptables and the DNS forwarder: calls into other systems.
- Parsing of keys, addresses and CIDR texts: `PeerConfig` holds the parse results, and a network stands for its canonical text; sorting uses the order of the networks instead of that of the texts.
- Integer overflow of durations in nanoseconds, which takes an idle timeout of 292 years.
- Ports in the host header, and hostnames with `*` or placeholders in the protection list, which Caddy would read as patterns.
- Traffic-driven touches of a session: they only add activity, which `IdleCheck.NeverSlept` allows for.
- The WireGuard device's handshakes and counters: a device is its peers and their allowed networks, and an update of it happens as a whole.
- LIKE patterns beyond SQLite's length limit, and names that are not valid Unicode.
- rsync's own splitting of `-e` and ssh's `%` expansion: `ShellQuote` claims POSIX word splitting only.
- HMAC-SHA256 and the key file of the route tokens: the signature is any function of key and message.
- JSON: `Bundle` takes printer and parser as parameters, and base image metadata is not part of its manifest.
- Read and write errors in `SparseCopy`: the copy then fails, and nothing is claimed about the file.
