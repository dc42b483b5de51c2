# Varmlen, modelled and proved in Dafny

Varmlen is a VPN client for Windows. An unprivileged client compiles a server location and a split-tunnel selection
into a configuration for Xray; a privileged service runs Xray on it and owns a kill switch made of routes. This project
models three parts and proves what they are for:

- **The connection service.** The controller's transaction over its backend, the journal and route file behind it,
  recovery from a crash in any state, and the interleaving of clients, monitor and core management at two mutexes.
- **The configuration compiler.** Cleaning what a provider sends, planning outbounds and balancers, compiling routing
  rules, the service's inspection and rewrite, and the parser that reads outbounds back.
- **Small companions.** The journal and frame codecs, the refresh schedule, and the merge of pasted configurations.

`dafny verify dfyconfig.toml` checks everything.

## How the service is modelled

`World.Machine` is the machine: journal, route file, kill-switch routes, candidate and active configuration files, and
the one Xray process. Every change to it is one step; each step may fail, by a nondeterministic choice, wherever the
source makes a foreign call (netsh, the file system, DPAPI, process creation, health checks, adapter lookups). The
machine keeps the set of states it passed through since the current operation began, and a crash may happen in any of
them. Whether an intact journal or route file can be read at the moment is an input of every operation that reads it.
A machine may be `reliable`: then no foreign call fails, and what the contracts say of it shows that an outcome is
reached and not only allowed; what it finds, its adapters and the interface by which endpoints are best reached, is
fixed but arbitrary. Or it may be `unwritable`: then no journal record can be written. A process may exit on its own
between operations (`World.Machine.Exit`). `Backend.WindowsBackend` and `Controller.ConnectionController` are classes
with the fields of the source, and their methods state the new machine state, the records written and what every state
passed through looks like (`Controller.ConnectStep`, `Controller.ConnectWrites`, `Controller.Bridged`, all about one
`Controller.Transaction`). The controller also carries, as a ghost, the word of backend calls made so far; its
invariant says that the automaton `ProtocolLanguage.Next` accepts that word and ends in the phase the service reports.
A connect makes one of the words of `ProtocolLanguage.ConnectWord`, one for each way it can end
(`ProtocolLanguage.Ending`). `Commands` says what each command and each start calls, leaves and replies; `Service`
opens the service from a journal, executes commands, and runs whole lifetimes of commands, crashes and restarts.
`Coherence` is a state machine of tasks at the two mutexes, dying and starting again at any point; its view of the
controller is what `Coherence.SwitchTunnel`, `Coherence.StopTunnel` and `Coherence.OpenTunnel` prove of the real one.
It tells the tunnel that is reported from the process that runs; a process that exited on its own counts as running
until the monitor has seen it. `Lookup` says where packets go under the routes: the longest prefix wins, then the
lowest route metric, without the metric of the interface that Windows adds to it.

## How the compiler is modelled

JSON values are trees. Builders are functions from a location to a tree; where the source loops over a vector and
pushes or rewrites in place, a method does the same and is proved equal to the function. `Decision` gives routing
rules a first-match meaning on packets and states, without mentioning rules, what a selection should do to a packet.
`FileKeys` and `EndToEnd` then follow a configuration through inspection and rewrite. `Rewrite`, `Cleaning` and
`Places` state what inspection, rewrite, cleaning and collection mean on the paths through a value (`Paths`), without
the functions that compute them. What a hash set yields first is a parameter (`pick`), different in every call.

## What the proofs turned up

- An unreadable journal is treated as no journal. A journal that demands a block is let down exactly when it cannot be
  read and an attempt to clear up succeeds (`Service.Open`, for records as a connect writes them);
  `Service.UnreadJournalOpensTheNetwork` is a connection under its kill switch that ends disconnected, without a route,
  although nothing but that one read fails. The whole-run theorem `Service.Serve` holds while journals can be read.
- The route file is a reliable log as long as it can be read (`Routes.RunOperations`). Otherwise a successful
  installation keeps it complete exactly when every host route is wanted anyway
  (`Routes.InstallKeepsTheLogExactlyWhen`), a removal that meets no other failure exactly when one of its two reads
  succeeds or there is no host route (`Routes.RemoveRoutes`), and `Routes.HostRouteIsOrphaned` leaves a route that no
  file names.
- Reinstalling routes deletes and adds each in turn. In every state at most one route that was there is missing
  (`Routes.InstallRoutes`, `Backend.WindowsBackend.ClearNetworkState`, `Guarantees.BlockOverHold`). A complete hold
  does pass through an incomplete state (`Routes.HoldIsOpenedByReinstalling`); none is missing exactly when no
  deletion that took effect was of a route that was there (`Routes.SeamlessExactlyWhen`).
- While nobody holds the versions mutex, what runs is the active Xray version, but for a tunnel left by a core
  rollback that failed, a tunnel brought up by a start from a journal that names another version, and a process left
  running behind a reported block (`Coherence.CoherentThroughout`). In exactly these cases `uninstall` can remove a
  core that is running (`Coherence.UninstallSparesTheRunning`). A start is coherent exactly when it ends unconnected
  or the journaled version is the active one (`Coherence.StartCoherentExactlyWhen`); with the tunnel up, dying leads
  to a mismatch exactly between the write of the active file and the end of the switch
  (`Coherence.CrashStraysExactlyWhen`). `Coherence.FailedRollbackStrands`, `Coherence.CrashStrandsTheRunning` and
  `Coherence.StaleJournalStrands` are runs into the first two cases. A disconnect that cannot journal anything leaves
  the process running (`Coherence.FailedDisconnectLeavesBehind`), and so does a switch whose hold cannot be released;
  in `Coherence.LeftProcessLosesItsCore` and `Coherence.LostSwitchLosesItsCore` its core is then uninstalled. A start
  whose active file names a missing version goes stale once that version is installed
  (`Coherence.InstallKeepsCoherenceExactlyWhen`).
- A reported block need not have its routes. A connect over a block whose hold cannot be verified releases the hold,
  which removes the routes unless a live connection asks for them, and the block is reported again
  (`Guarantees.RefusedBlockIsOpen`); `Controller.BlockHeldAs` says for every last call when the routes are there. Over
  a whole lifetime the routes that a report promises are there, unless a refused connect, or a start that could
  only force the block, lies behind it (`Service.Serve`).
- The preflight and the connection choose a balancer independently from hash sets. With two balancers and no rule that
  names the target they may disagree (`Plan.SameTargetExactlyWhen`); `Exceptions.TwoTargets` is such a profile.
- `validate_server` lower-cases the protocol and the builder does not, so a location with an upper-case protocol
  passes validation and is built as vless (`Outbound.ProtocolKeptExactlyWhen`, `Exceptions.UppercaseBecomesVless`). A
  Hysteria2 location whose security reads `TLS` passes the demand for TLS and is built without it
  (`RoundTrip.TlsKeptExactlyWhen`, `Exceptions.UppercaseLosesTls`).
- A comment in `src-tauri/src/xray.rs` says that WireGuard outbounds may not have stream settings; the service's
  rewrite adds them to every outbound that dials. The model follows the code.
- `parse_outbound` is documented as the inverse of the builder. It is, exactly for the locations that
  `RoundTrip.RoundTripExactlyWhen` describes; among others, kcp and http transports with settings of their own
  (`Exceptions.SeedIsLost`), fake HTTP headers and free-form xhttp settings are lost, and no WireGuard location that is
  accepted survives (`Exceptions.WireGuardNeverReturns`).
- A clearing by the monitor is journaled under the operation of the last connect, which is not the one the service
  reports exactly when that connect failed, went back to an older connection and had an operation of its own
  (`Guarantees.AuditAfterConnect`).

## Model

| member | source | states |
|---|---|---|
| World.Machine.PersistDesiredState | service/src/windows_state.rs:39-47 | the journal write is all or nothing: the new record, or the old state untouched; the record is logged exactly when it was written |
| World.Machine.WriteActiveFile | service/src/windows_process.rs:54-58 | active.json holds the prepared bytes or what it held before |
| World.Machine.Spawn | service/src/windows_process.rs:61-99 | the new process runs the configuration its file held at that moment, and has a fresh identity |
| World.Machine.Kill | service/src/windows_process.rs:105-111 | whatever is reported, the process is gone |
| World.Machine.Crash | service/src/pipe.rs:91-97 | the service can die in any state the current operation passed through, and Xray dies with it |
| World.Machine.EnumerateAdapters | service/src/windows_adapter.rs:109-162 | a reliable machine lists its adapters |
| World.Machine.BestInterface | service/src/windows_adapter.rs:209-239 | a reliable machine names the interface by which the endpoints are best reached, if there is one |
| World.Machine.IsRunning | service/src/windows_process.rs:101-103 | whether the process runs may not be known, but if it is, it is true |
| Address.SortDedup | service/src/windows_routes.rs:31-33 | sorted, without duplicates, with exactly the addresses given |
| Address.OrderedSame | service/src/windows_routes.rs:31-34 | so the number of names to guard, which the limit is about, depends on the set of names alone |
| Adapter.PhysicalDnsServers | service/src/windows_adapter.rs:109-162 | exactly the local resolvers of the adapters that are not the tunnel, each once |
| Routes.LoadRouteState | service/src/windows_routes.rs:132-146 | an intact file that can be read gives exactly the names in it and a missing one no name; a damaged one, or one that cannot be read, fails |
| Routes.InstallHalves | service/src/windows_routes.rs:46-63 | success leaves all four split-default routes; every state passed through differs in them alone and lacks at most one that was there, one whose deletion took effect |
| Routes.InstallHosts | service/src/windows_routes.rs:64-67 | success leaves a route for every listed resolver; no other host route is ever touched, and at most one that was there is missing at a time |
| Routes.NameServers | service/src/windows_routes.rs:30-45 | the names written are exactly the local resolvers and, if the old file was read, its names; naming fails exactly when they exceed the limit, if nothing else fails |
| Routes.InstallTable | service/src/windows_routes.rs:46-67 | over halves and host routes together at most one route that was there is missing at a time |
| Routes.VerifyRoutes | service/src/windows_routes.rs:93-119 | success means every route listed is present, or none is |
| Routes.InstallRoutes | service/src/windows_routes.rs:29-69 | after every single step the routes in the table are named in the file, exactly when they were before, and at most one route that was there is missing; success covers every local resolver and all four halves, and where no other call fails it is reached exactly when the names are within the limit |
| Routes.SeamlessExactlyWhen | service/src/windows_routes.rs:46-67 | an installation never lacks a route that was there exactly when no deletion that took effect was of one; where nothing fails, exactly when it installs none of them a second time |
| Routes.HoldIsOpenedByReinstalling | service/src/windows_routes.rs:46-67 | a complete hold that is installed again passes through a state without one half, although nothing fails |
| Routes.DeleteRoutes | service/src/windows_routes.rs:73-82 | only halves and listed host routes disappear, and no route of either kind ever comes back |
| Routes.RemoveRoutes | service/src/windows_routes.rs:73-91 | the file is deleted only after absence was verified; success leaves no split-default route and, if the file was read, no host route that was named; without other failures the log stays complete exactly when one of the two reads succeeds or there is no host route |
| Routes.HostRouteIsOrphaned | service/src/windows_routes.rs:132-146 | a route file that cannot be read for a moment, while nothing else fails, leaves a host route that no file names |
| Routes.InstallKeepsTheLogExactlyWhen | service/src/windows_routes.rs:29-45 | a successful installation keeps every host route named exactly when the old file was read or every host route is wanted anyway |
| Routes.RouteFileFits | service/src/windows_routes.rs:34-45 | the limit on servers keeps the written file under the limit on what is loaded |
| Routes.RunOperations | service/src/windows_routes.rs:29-119 | over any sequence of installs and removes, each possibly cut short by a crash in any state, no host route exists that the file does not name, as long as every read of the file succeeds |
| Prefixes.BlackholeIsLocal | service/src/windows_adapter.rs:164-180 | the octet test for resolvers that need a host route is membership in the local address ranges |
| Prefixes.PrivateRanges | src-tauri/src/xray.rs:139-149 | the private ranges of the client are the local ranges and loopback, and nothing else |
| Prefixes.BlackholeIsPrivateButLoopback | service/src/windows_adapter.rs:164-180 | the service guards exactly the client's private ranges (section 3 of RFC 1918, section 7 of RFC 6598, section 3.1 of RFC 4193, section 2.5.6 of RFC 4291) without loopback |
| Lookup.BlockedExactlyWhen | service/src/windows_routes.rs:13-17 | with the hold in place and whatever other routes, an address goes to loopback exactly when no other route is more specific than a half or ties it with a metric that is no worse |
| Lookup.ResolverBlockedExactlyWhen | service/src/windows_routes.rs:121-126 | a resolver with a host route goes to loopback exactly when no other host route for it has a metric that is no worse |
| Lookup.TunnelledExactlyWhen | service/src/windows_routes.rs:210-253 | with a healthy tunnel an address without a host route goes into the tunnel exactly when no physical route beats the tunnel's halves |
| Lookup.HoldBlocksExactlyWhen | service/src/windows_routes.rs:13-17 | in every state with the hold in place an address goes to loopback exactly when no other route claims it, where a guarded resolver is claimed by a host route of metric one at most |
| Lookup.HoldNeverLeaks | service/src/windows_routes.rs:25-28 | nor does it then leave by a physical route, whatever the tunnel has in the table |
| Lookup.InstallBlocks | service/src/windows_routes.rs:29-69 | a successful installation gives every local resolver its route, and every address goes to loopback exactly when no other route claims it |
| Backend.WindowsBackend.Open | service/src/windows_backend.rs:44-59 | a backend starts with every slot empty |
| Backend.WindowsBackend.StopProcess | service/src/windows_backend.rs:75-80 | the slot is empty afterwards, whatever is reported |
| Backend.WindowsBackend.Adapt | service/src/windows_backend.rs:196-211 | the live interface is kept and otherwise the best one is asked for; where nothing fails a configuration is made exactly when there is an interface and the rewrite for it succeeds |
| Backend.WindowsBackend.ValidateCandidate | service/src/windows_backend.rs:174-221 | success prepares the rewrite of the request for the interface of the live connection, if there is one, and candidate.json holds those bytes; failure leaves all slots as they were; where no foreign call fails a request is accepted exactly when both configurations pass inspection, an interface is found and the rewrite for it succeeds |
| Backend.WindowsBackend.InstallTransitionHold | service/src/windows_backend.rs:223-250 | the intent is journaled with the candidate, the live request and the candidate's own kill switch before any route changes; success with either kill switch on leaves every route present, and where no foreign call fails it is reached unless there are too many names to guard |
| Backend.WindowsBackend.VerifyTransitionHold | service/src/windows_backend.rs:252-267 | success with a kill switch on means all four halves are there, and every recorded host route if the file was read; a hold that is there passes if nothing fails |
| Backend.WindowsBackend.StopActive | service/src/windows_backend.rs:269-275 | the live request and interface move to the previous slots and the process is gone |
| Backend.WindowsBackend.StartCandidate | service/src/windows_backend.rs:277-289 | what runs is the prepared version on the bytes of candidate.json, with a new process identity |
| Backend.WindowsBackend.VerifyCandidate | service/src/windows_backend.rs:291-296 | an empty process slot never passes; a filled one does if nothing fails |
| Backend.WindowsBackend.CommitPolicy | service/src/windows_backend.rs:298-327 | active.json first, then the journal write that commits; the slots change only after it; where nothing fails a prepared candidate is committed |
| Backend.WindowsBackend.ReleaseTransitionHold | service/src/windows_backend.rs:329-341 | a kill-switch connection keeps its routes untouched; any other loses, on success, all halves and the file and, if the file was read, the host routes it named; where nothing fails it succeeds over a hold that is there and wherever none is to stay |
| Backend.WindowsBackend.Relaunch | service/src/windows_backend.rs:364-374 | the journal names the connection only after its bytes are in active.json and a healthy process runs them |
| Backend.WindowsBackend.Redial | service/src/windows_backend.rs:354-380 | the same for a request that was live, behind its own interface; where nothing fails it succeeds exactly when the request can be run |
| Backend.WindowsBackend.RestorePrevious | service/src/windows_backend.rs:343-384 | success brings back exactly the request and interface set aside; failure leaves the journal as it was; where nothing fails it succeeds exactly when a connection was set aside that can still be run |
| Backend.WindowsBackend.SettleRoutes | service/src/windows_backend.rs:400-411 | a block has every route and lacks at most one that was there on the way; an open network has no half, no file and, if the file was read, none of the host routes it named |
| Backend.WindowsBackend.TearDown | service/src/windows_backend.rs:393-411 | the process is gone before any route changes; success forgets every request and interface |
| Backend.WindowsBackend.ClearNetworkState | service/src/windows_backend.rs:386-422 | the wish is journaled before anything is torn down and the outcome only after the routes settled; success empties every slot; on the way to a block at most one route that was there is missing; where no foreign call fails it fails exactly for a block with too many names to guard |
| Backend.WindowsBackend.ActiveIsRunning | service/src/windows_backend.rs:424-431 | an empty slot is known not to run; of a process, what is known is whether it exited on its own |
| Controller.ConnectionController.constructor | crates/varmlen-service-core/src/controller.rs:44-49 | a fresh controller is disconnected and valid |
| Controller.ConnectionController.PrepareCandidate | crates/varmlen-service-core/src/controller.rs:161-170 | validation never touches the live connection, its journal or its routes; where no foreign call fails it accepts exactly the requests that can be accepted |
| Controller.ConnectionController.InstallHold | crates/varmlen-service-core/src/controller.rs:172-176 | a failed installation reports the old state; in every state passed through the old process runs, the journal is the old one or the intent, and at most one route that was there is missing; where no foreign call fails only too many names stand in its way |
| Controller.ConnectionController.CheckHold | crates/varmlen-service-core/src/controller.rs:177-184 | a hold that is verified is left as it is; one that is not is released, and the old state or a block is reported |
| Controller.ConnectionController.HoldCandidate | crates/varmlen-service-core/src/controller.rs:172-184 | success means a verified hold over an untouched connection; a refusal leaves the routes as its last call does |
| Controller.ConnectionController.RefuseHold | crates/varmlen-service-core/src/controller.rs:177-184 | a refused hold is released; only routes change: none under a live kill switch, and without one a success leaves no half and no file, whatever is reported again |
| Controller.ConnectionController.Secure | crates/varmlen-service-core/src/controller.rs:161-184 | everything before the live connection is touched: its calls, reply and report by how it ends, and how it ends where no foreign call fails |
| Controller.ConnectionController.SetActiveAside | crates/varmlen-service-core/src/controller.rs:186-191 | the live connection is stopped only under a hold that covers the gap |
| Controller.ConnectionController.LaunchCandidate | crates/varmlen-service-core/src/controller.rs:193-203 | the candidate is started under the hold, on the bytes that were prepared |
| Controller.ConnectionController.TryCandidate | crates/varmlen-service-core/src/controller.rs:193-213 | a candidate that passes runs its own version on its own bytes; nothing else changes |
| Controller.ConnectionController.CommitCandidate | crates/varmlen-service-core/src/controller.rs:214-223 | success makes the candidate the live connection, with every route of the hold still there if either request wanted it; failure leaves everything in flight |
| Controller.ConnectionController.EstablishCandidate | crates/varmlen-service-core/src/controller.rs:193-223 | the calls up to the first that fails and the error of that one; where nothing fails the candidate is committed |
| Controller.ConnectionController.CloseHold | crates/varmlen-service-core/src/controller.rs:224-236 | the closing release keeps a kill-switch connection's routes; of any other it removes the halves and, if the file was read, the host routes it named |
| Controller.ConnectionController.StartAndCommit | crates/varmlen-service-core/src/controller.rs:193-237 | the candidate is connected, or the old state is back, or everything is cleared, or the block is reported: which one, and the error, by the calls that were made; where nothing fails it is connected |
| Controller.ConnectionController.Replace | crates/varmlen-service-core/src/controller.rs:186-237 | from the verified hold on every state is held until a connection that does without the routes is journaled or the closing clear begins |
| Controller.ConnectionController.Cross | crates/varmlen-service-core/src/controller.rs:186-237 | every state with another process than the old one is among those from the verified hold on |
| Controller.ConnectionController.ClearCandidate | crates/varmlen-service-core/src/controller.rs:120-142 | without a previous connection a failure settles blocked exactly as the candidate asked |
| Controller.ConnectionController.Reinstate | crates/varmlen-service-core/src/controller.rs:144-148 | success journals and runs the connection that was live, held if it asks for it; failure leaves the intent as the only record; where nothing fails it succeeds if the connection can still be run |
| Controller.ConnectionController.RestoreConnection | crates/varmlen-service-core/src/controller.rs:144-154 | a failed restore never releases the hold; a successful one brings the same request back on the same interface |
| Controller.ConnectionController.RecoverCandidateFailure | crates/varmlen-service-core/src/controller.rs:113-154 | the state after compensation, for both kinds of failure |
| Controller.ConnectionController.GiveUp | crates/varmlen-service-core/src/controller.rs:193-223 | a failed candidate is undone and its own error reported, unless undoing it fails as well |
| Controller.ConnectionController.Connect | crates/varmlen-service-core/src/controller.rs:156-237 | the calls made are one of the words of `ProtocolLanguage.ConnectWord`, and that word decides the reply, its error and the state reported; on a reliable machine it is the word of `Controller.Expected`: connected whenever the request is acceptable and the names to guard are within the limit; success: the new request is live, journaled and held as it asks, on the old interface; failure: the old state with the old request, interface and active.json, or cleared, or a reported block; the records written, what runs and every state passed through are of the listed kinds only; and for each last call, exactly when a block that is reported has its routes |
| Controller.ConnectionController.ClearUp | crates/varmlen-service-core/src/controller.rs:239-270 | success empties every slot, stops the process, journals the outcome under the pending operation and settles the routes as asked; failure reports a block over the old process or none; where no foreign call fails only a block with too many names to guard does |
| Controller.ConnectionController.Disconnect | crates/varmlen-service-core/src/controller.rs:239-270 | the same from any settled state; a disconnect to a block lacks at most one route at a time, and one that can write no record fails and changes nothing |
| Controller.ConnectionController.AuditRuntime | crates/varmlen-service-core/src/controller.rs:85-111 | a connection whose process is known to have exited is cleared behind, blocked exactly when its request had the kill switch on, and journaled under the pending operation; in any other state, for a process that runs and for one of which nothing is known, nothing changes and nothing but the question is called |
| Controller.ConnectionController.ForceBlocked | crates/varmlen-service-core/src/controller.rs:63-71 | in any settled state the block is reported without touching the machine |
| ProtocolLanguage.StopOnlyUnderHold | crates/varmlen-service-core/src/controller.rs:167-191 | in every word of calls the controller can make, a connection is stopped only right after validate, install and verify all succeeded |
| ProtocolLanguage.RestoreOnlyAfterStop | crates/varmlen-service-core/src/controller.rs:193-223 | a restore follows a successful stop and the one failure of the candidate that replaced it |
| ProtocolLanguage.NoReleaseAfterFailedRestore | crates/varmlen-service-core/src/controller.rs:144-148 | after a failed restore the hold is left alone until a new operation begins |
| ProtocolLanguage.PrefixAccepted | crates/varmlen-service-core/src/controller.rs:156-237 | no word recovers from a call out of order |
| ProtocolLanguage.ConnectAccepted | crates/varmlen-service-core/src/controller.rs:156-237 | the automaton accepts every word of a connect from every settled phase and ends in the phase that is reported |
| Commands.ForcedBehindClear | service/src/pipe.rs:144-151 | a block is forced exactly behind a clear that failed |
| Commands.DemandsExactlyWhen | service/src/pipe.rs:99-113 | a record demands a block exactly if a connection it names has its kill switch on or it asks for a block itself |
| Commands.ReliableStartConnects | service/src/pipe.rs:99-123 | a reliable machine that can read its journal comes back to the connection the journal names whenever that is acceptable and the names to guard are within the limit |
| Service.Open | service/src/pipe.rs:91-159 | a start calls what the journal asks for, a connect to exactly the connection it names or a clear, and a second clear only if that failed, and forces a block only if that failed too (`Commands.Opens`); it always settles, with the journal's operation id, connected only to what the journal names, which no state on the way replaces by another connection or runs another version than, and on a reliable machine whenever that can be connected; for records as a connect writes them, a demanded block is let down exactly when the journal cannot be read and an attempt to clear up succeeds; and what is reported blocked, or connected under a kill switch, has its routes unless the last attempt to clear up failed |
| Service.Recover | service/src/pipe.rs:99-143 | the first attempt of a start: a connect to the target whose intent is the first record, or the clear the record asks for; what it calls, reports, journals and runs, for every record and for none |
| Service.Dial | service/src/pipe.rs:173-182 | a connect as a client sees it (`Commands.Connects`): calls, reply, report, what is remembered and what runs |
| Service.UnreadJournalOpensTheNetwork | service/src/pipe.rs:140-151 | a held connection with its kill switch on, a journal that cannot be read and no other failure: the start ends disconnected, without a half or a route file |
| Service.FallBack | service/src/pipe.rs:144-151 | a second clear that succeeds settles as the journal allows, a block with its routes; one that fails is reported as a block |
| Service.Reconnect | service/src/pipe.rs:173-182 | through every state of a connect the journal names the old target, the live request, the candidate or nothing, records stay faithful, and a kill-switch connect drops no demand to block; what it reports has its routes if it promises them, unless it was refused |
| Service.Disengage | service/src/pipe.rs:183-188 | the same for a disconnect (`Commands.Clears`), which names no new connection and is never refused |
| Service.SwitchVersion | service/src/pipe.rs:240-276 | over a connection the live request is reconnected with the version that was activated, and nothing else of it changes; without one nothing is done; the error is that of the connect, or of the core that could not be put back |
| Service.Monitor | service/src/pipe.rs:397-405 | a tick clears up exactly behind a connection whose process is known to have exited (`Commands.Audits`) |
| Service.Execute | service/src/pipe.rs:164-283 | every command does what it is for and replies so (`Commands.Carried`): a connect runs the request on the active version and calls the word of a connect, a disconnect settles exactly as asked or reports a block, a switch reconnects the live request to the new version, a tick clears up behind an exited process alone, a status changes nothing; and no fail-closed command drops the demand to block in any state it passes through, records stay faithful, and routes that are promised are there unless a connect was refused or they were missing before |
| Service.DieAndRestart | service/src/pipe.rs:91-159 | dying anywhere and starting again, however often, keeps a demanded block, with its routes unless it was forced |
| Service.Serve | service/src/pipe.rs:91-283 | over any lifetime of commands, monitor ticks, processes that exit, crashes and restarts every event is accounted for by what it is promised to do (`Service.Account`); every record stays faithful; the routes that a settled state promises are there, unless a refused connect or a forced block lies behind it; and a connection that was up is never followed by an open network, if no command asks for one and every start can read the journal |
| Service.ConnectKeepsDemand | crates/varmlen-service-core/src/controller.rs:156-237 | in every state a kill-switch connect passes through the journal is the old one or demands a block |
| Service.DisconnectKeepsDemand | crates/varmlen-service-core/src/controller.rs:239-270 | the same for a disconnect that keeps the block |
| Guarantees.ReconnectIsAtomic | service/src/windows_backend.rs:223-384 | in every state a reconnect passes through there is one connection to come back to, the old or the new, and the new one only after the commit |
| Guarantees.InterruptedReconnect | service/src/pipe.rs:114-152 | a service that dies anywhere in a reconnect comes back to the old connection or the new one; it comes back open only if one of them had no kill switch |
| Guarantees.HoldCoversTheGap | crates/varmlen-service-core/src/controller.rs:172-237 | with the kill switch on in the candidate or in what was live: from the verified hold on, and whenever the old process is gone, every route of the hold is present until a connection without the switch is journaled or, when nothing was connected, the closing clear has begun |
| Guarantees.GuardedReconnect | crates/varmlen-service-core/src/controller.rs:172-237 | in a reconnect with the switch on in either connection, every state passed through still has the old process, has every route of the hold, or journals the connection without the switch; between two such connections the last never happens |
| Guarantees.GapNeverLeaks | crates/varmlen-service-core/src/controller.rs:172-237 | the same about packets: while the old process is gone, what no physical route claims from the hold does not leave by one, up to the same ends |
| Guarantees.ReconnectChain | service/src/windows_backend.rs:196-220 | the physical interface is constant along any chain of reconnects |
| Guarantees.BlockOverHold | crates/varmlen-service-core/src/controller.rs:239-270 | a disconnect that keeps a block over existing routes lacks at most one of them at a time |
| Guarantees.RefusedBlockIsOpen | crates/varmlen-service-core/src/controller.rs:177-183 | from a held block, once the hold of a connect could not be verified and nothing else fails, the block is reported again without a half or a route file |
| Guarantees.ExitIsNoticed | crates/varmlen-service-core/src/controller.rs:85-111 | where no foreign call fails one tick decides: behind a process that exited the routes are settled as its kill switch asks, unless there are too many names to guard; a healthy one is left alone |
| Guarantees.AuditAfterConnect | crates/varmlen-service-core/src/controller.rs:92-99 | what the monitor clears after a connect is journaled under that connect's operation, and another one is reported exactly when the connect failed and had an operation of its own, whether Xray exits in between or not |
| Coherence.CoherentThroughout | service/src/pipe.rs:91-283 | over every interleaving at the two mutexes and over any number of crashes and restarts, whenever nobody holds the versions what runs is the active version, unless it is a tunnel left by a failed rollback or brought up from a journal that named another version, or a process left behind where no tunnel is reported |
| Coherence.UninstallSparesTheRunning | service/src/core_manager.rs:339-356 | what is uninstalled is neither bundled nor active, and runs exactly when its tunnel is one of those two or its process was left behind |
| Coherence.TunnelOrLeft | service/src/pipe.rs:164-283 | what runs is the reported tunnel, or was left behind by a connect, a disconnect or a start and has been there since |
| Coherence.FailedRollbackStraysExactlyWhen | service/src/pipe.rs:264-278 | a failed rollback leaves a mismatch exactly when the old tunnel survived |
| Coherence.CrashStraysExactlyWhen | service/src/pipe.rs:237-281 | with the tunnel up, dying can lead to a mismatch exactly between the write of the active file and the end of the switch |
| Coherence.CrashStrandsTheRunning | service/src/pipe.rs:237-283 | a run that dies while a switch waits for the controller, comes back on the old version, and has that core uninstalled under it |
| Coherence.FailedRollbackStrands | service/src/pipe.rs:264-278 | a run that reaches a failed rollback with the tunnel up |
| Coherence.StaleJournalStrands | service/src/pipe.rs:237-249 | a run that activates another version over a stale journal, without a switch and whatever still runs, and starts on the old one |
| Coherence.LeftProcessLosesItsCore | service/src/pipe.rs:237-283 | a run whose disconnect fails, that activates another version without a switch, and uninstalls the core of the process still running |
| Coherence.LostSwitchLosesItsCore | service/src/pipe.rs:237-283 | a run whose switch fails in its last step, that rolls the active file back, and uninstalls the core of the new process |
| Coherence.InstallKeepsCoherenceExactlyWhen | service/src/core_manager.rs:152-158 | installing a missing version leaves a live tunnel coherent exactly when the active file does not already name it |
| Coherence.KeptStep | service/src/pipe.rs:237-281 | every step of every task keeps the invariant of files, journal, process and tunnel, and keeps the tunnel in step except by a failed rollback |
| Coherence.RestartKeeps | service/src/pipe.rs:91-159 | so does a restart, which is in step exactly when the journal named the active version or nothing came up |
| Coherence.ExclusiveStep | service/src/pipe.rs:173-183 | every step keeps both mutexes exclusive |
| Coherence.SwitchTunnel | service/src/pipe.rs:173-182 | what the interleaving assumes of a connect, in the end and in every state the service may die in, is what the controller does: a failure leaves no process, the old one or the new one, and without a tunnel only behind a reported block |
| Coherence.StopTunnel | service/src/pipe.rs:397-413 | the same of a disconnect and of the monitor, which leave no process or the old one |
| Coherence.OpenTunnel | service/src/pipe.rs:91-159 | the same of a start, which leaves no process or that of the journaled connection |
| Coherence.FailedDisconnectLeavesBehind | service/src/windows_backend.rs:386-391 | a disconnect that can write no record reports a block and leaves the process of the tunnel running |
| Records.PayloadExactlyFramed | service/src/state_record.rs:110-121 | a payload comes out of exactly one input, its own frame of exactly its length |
| Records.RecordReadBack | service/src/state_record.rs:94-138 | every valid record whose text fits encodes, and decodes to itself |
| Records.AcceptedIsValid | service/src/state_record.rs:110-177 | whatever is accepted is a valid record of the current format, framed to the byte |
| Records.LegacyAcceptedExactlyWhen | service/src/state_record.rs:128-144 | a record of the first format is accepted exactly when it has an operation and a valid request |
| Bytes.LittleEndianBothWays | service/src/state_record.rs:102-120 | the length field reads back what was written, and only that |
| Framing.Stream.WritePayload | crates/varmlen-service-core/src/framing.rs:24-40 | a payload over the limit writes nothing; success writes exactly its frame; a failure part of it |
| Framing.Stream.ReadPayload | crates/varmlen-service-core/src/framing.rs:4-22 | what is read, and what is left, is what splitting off one frame gives |
| Framing.UnframeExactlyFrames | crates/varmlen-service-core/src/framing.rs:4-40 | a frame reads back exactly, whatever follows, and nothing else does |
| Framing.UnframesExactlyFrames | crates/varmlen-service-core/src/framing.rs:4-40 | frames are a prefix code: a stream splits into a list exactly when it is the frames of that list |
| Framing.Transfer | crates/varmlen-service-core/src/framing.rs:4-40 | any list of payloads within the limit that is written is read back, in order and unchanged |
| Runtime.RewriteInPlace | crates/varmlen-service-core/src/runtime.rs:133-202 | the rewrite in place is the rewrite as a function, of which the next rows speak, with the same errors in the same order |
| Rewrite.RewriteChangesOnly | crates/varmlen-service-core/src/runtime.rs:145-202 | of an outbound that dials, every key but the stream settings is kept, of these every key but the socket options, and of these every key but the interface, which is the name; one that does not dial is kept as it is; of the inbound exactly five settings go; every other top-level field is kept |
| Rewrite.RewriteSucceedsExactlyWhen | crates/varmlen-service-core/src/runtime.rs:133-202 | it succeeds exactly for an accepted configuration, a name that is short and printable, and outbounds whose stream settings and socket options are objects or missing |
| Rewrite.TunnelAcceptedExactlyWhen | crates/varmlen-service-core/src/runtime.rs:31-126 | a configuration is accepted for the tunnel exactly when it has known fields only, no path in it names a file, and its one inbound is the TUN with the addresses, resolver and routes of Varmlen |
| Rewrite.PreflightAcceptedExactlyWhen | crates/varmlen-service-core/src/runtime.rs:204-260 | a preflight is accepted exactly when it has known fields only, no path in it names a file, it listens on loopback alone, has no TUN and exactly one SOCKS inbound, on a valid port |
| Rewrite.NoFileExactlyWhen | crates/varmlen-service-core/src/runtime.rs:332-356 | the recursive check fails exactly when some path through the value ends in one of the five keys |
| Runtime.RewritePortsInPlace | crates/varmlen-service-core/src/runtime.rs:277-291 | the loop gives the SOCKS inbounds the ports in order and leaves all others |
| Provider.SanitizedIsClean | src-tauri/src/xray.rs:184-233 | what is left names no file, skips no certificate check, sends through nothing, carries no mark, and in the strict mode chains to nothing and is called proxy |
| Cleaning.CleanedExactlyWhen | src-tauri/src/xray.rs:184-202 | an outbound is taken exactly when it speaks a proxy protocol, in any case, and no path in it names a file or skips a certificate check |
| Cleaning.CleaningKeeps | src-tauri/src/xray.rs:204-232 | every key is kept but the sending address, in the strict mode the chain and the tag, and for WireGuard the stream settings; of other stream settings every key but the socket options, and of these every one but the mark and, in the strict mode, the dialer |
| Provider.SanitizeTwice | src-tauri/src/xray.rs:184-233 | cleaning twice changes nothing, and both modes refuse the same outbounds |
| Provider.HarmlessNamesNoFile | src-tauri/src/xray.rs:235-247 | whatever the client lets pass names no file in the sense of the service |
| Provider.CleanIsBindable | crates/varmlen-service-core/src/runtime.rs:171-197 | the service can bind every cleaned outbound to an adapter |
| Provider.ProviderProxyOutbounds | src-tauri/src/xray.rs:268-308 | the loop with its set of tags collects the proxies, or gives the first error |
| Provider.CollectedInOrder | src-tauri/src/xray.rs:275-303 | the proxies are the proxy outbounds of the profile, in order, each cleaned and tagged by its position |
| Provider.OriginsAreTheProxies | src-tauri/src/xray.rs:275-283 | the positions are those of the proxy outbounds, all of them, in order |
| Provider.CollectedDistinct | src-tauri/src/xray.rs:284-300 | no two proxies share a tag, and none takes one of the client's own |
| Provider.TagTellsPosition | src-tauri/src/xray.rs:287-297 | a proxy keeps its tag; one without gets a tag from which its position in the profile is read back |
| Plan.PlanIsClosed | src-tauri/src/xray.rs:310-419 | the target names a proxy or balancer of the plan, tags are distinct, and every balancer selects a proxy |
| Plan.TargetIsThatOfTheLastRule | src-tauri/src/xray.rs:360-397 | the target is that of the rule with the greatest index that points anywhere, a balancer before an outbound; else the balancer the hash set yields first; else the first proxy |
| Plan.PlanKeepsTheProfile | src-tauri/src/xray.rs:310-419 | observatories and balancers of a profile are passed on whole, and all its proxies, unless it comes to one outbound without any of these |
| Plan.PanicsExactlyWhen | src-tauri/src/xray.rs:408-419 | planning panics exactly for a profile that needs no plan beside an outbound that does not pass |
| Plan.ValidatedIsPlanned | src-tauri/src/xray.rs:424-433 | validating a location as the parser makes them never panics, and a validated location can always be planned |
| Plan.SameTargetExactlyWhen | src-tauri/src/xray.rs:360-397 | the preflight and the connection go to the same target exactly when a rule of the provider names it or there are no two balancers to choose from |
| Exceptions.TwoTargets | src-tauri/src/xray.rs:360-397 | a validated profile with two balancers for which two calls plan two targets |
| Locations.CollectedConsistent | src-tauri/src/subscription.rs:427-525 | every location found in JSON has an outbound of its own profile |
| Places.CollectedFromPlaces | src-tauri/src/subscription.rs:427-525 | the locations of a subscription are what is found at its places, one after the other |
| Places.PlacesExactlyWhen | src-tauri/src/subscription.rs:433-525 | the places are exactly the paths through elements and known keys, into no profile or outbound, as deep as the search goes |
| Places.PlacesInOrder | src-tauri/src/subscription.rs:433-525 | they come in the order of the document, none twice |
| Places.ProfileIsOneLocation | src-tauri/src/subscription.rs:452-500 | a profile is one location, parsed from the first proxy that can be, beside its first proxy and the whole profile |
| Outbound.ProtocolKeptExactlyWhen | src-tauri/src/xray.rs:768-852 | the protocol survives building exactly when it is written in lower case or is the fallback |
| Exceptions.UppercaseBecomesVless | src-tauri/src/xray.rs:424-480 | a location with the protocol VMESS passes validation and is built as vless |
| FileKeys.BuiltNames | src-tauri/src/xray.rs:514-852 | a built outbound names a file exactly when the free-form part of its xhttp transport does, and can always be bound |
| Compiler.BuildRouteRules | src-tauri/src/xray.rs:917-997 | pushing rules in place gives the list of rules that the meaning below is about |
| Decision.AppRulesMean | src-tauri/src/xray.rs:946-956 | the app rules catch exactly the flows of a listed app, for any number of apps |
| Decision.SiteRulesMean | src-tauri/src/xray.rs:958-977 | the site rule catches exactly the domains that a listed site covers |
| Decision.PrivateTextsMean | src-tauri/src/xray.rs:139-149 | the texts of the private ranges match exactly the private addresses |
| Decision.RulesMeanTheSelection | src-tauri/src/xray.rs:917-997 | first match over the generated rules is the plain split decision, for every packet and lists of any length |
| Decision.ResolverIsTunnelled | src-tauri/src/xray.rs:979-986 | in every mode the connection of the built-in resolver is tunnelled |
| EndToEnd.InspectionIsFileCheck | crates/varmlen-service-core/src/runtime.rs:31-126 | of all the demands of the service, a generated configuration can only fail the one on files |
| EndToEnd.AcceptedExactlyWhen | src-tauri/src/xray.rs:1012-1049 | a validated location always compiles, and the service accepts it exactly when what was passed on unseen names no file |
| EndToEnd.LinkLocationsAccepted | crates/varmlen-service-core/src/runtime.rs:31-126 | a validated location that brings no JSON of a provider is always accepted |
| EndToEnd.RewriteBindsOnly | crates/varmlen-service-core/src/runtime.rs:133-202 | the rewrite of an accepted configuration succeeds, rebinds each outbound and strips the inbound as `Rewrite.RewriteChangesOnly` says, and changes nothing beside |
| EndToEnd.MeaningIsPreserved | src-tauri/src/xray.rs:1012-1049 | compile, inspect and rewrite keep the meaning: every packet goes where the selection says, and every outbound is the compiled one but for the interface it is bound to |
| EndToEnd.ResolverIsPinned | src-tauri/src/xray.rs:979-1049 | the resolver that a generated configuration names is the address whose connections its rules send into the tunnel |
| EndToEnd.DomainsAreSniffed | src-tauri/src/xray.rs:1012-1049 | what runs reads the domains that site rules match from HTTP, TLS and QUIC alike, without redirecting by them; the rewrite keeps that |
| EndToEnd.ReferencesResolve | src-tauri/src/xray.rs:1012-1049 | no two outbounds share a tag, and every rule leads to an outbound or balancer that is there |
| EndToEnd.ProbeTakesTheTarget | src-tauri/src/xray.rs:1058-1092 | the preflight takes the way everything proxied takes |
| EndToEnd.AcceptedTogether | crates/varmlen-service-core/src/runtime.rs:204-260 | the preflight is accepted exactly when the connection is |
| EndToEnd.PortsRewrittenExactlyWhen | crates/varmlen-service-core/src/runtime.rs:265-295 | the rewrite succeeds exactly for an accepted probe and one unprivileged port; every SOCKS inbound changes in its port alone and nothing else changes |
| RoundTrip.ParseAfterBuild | src-tauri/src/subscription.rs:572-797 | parsing what was built gives the canonical form of the location, or nothing if it is not readable; of a WireGuard location the endpoint and the private key |
| RoundTrip.RoundTripExactlyWhen | src-tauri/src/xray.rs:768-852 | building, parsing and building again gives the same outbound exactly for readable and faithful locations, of any protocol |
| Exceptions.SeedIsLost | src-tauri/src/subscription.rs:740-797 | a validated mKCP location with a seed is read back as one that builds another outbound |
| Exceptions.SomeWireGuardIsAccepted | src-tauri/src/xray.rs:447-455 | one with a private and a public key is validated, so the next row speaks of something |
| Exceptions.WireGuardNeverReturns | src-tauri/src/subscription.rs:640-649 | no validated WireGuard location gives the same outbound after it was read back |
| RoundTrip.TlsKeptExactlyWhen | src-tauri/src/xray.rs:530-563 | a location that asks for TLS gets it exactly when it says so in lower case; what it gets checks the certificate, for the name given or else the host |
| Exceptions.UppercaseLosesTls | src-tauri/src/xray.rs:530-563 | a Hysteria2 location with the security TLS passes validation and is built without TLS settings |
| RoundTrip.CanonicalTwice | src-tauri/src/subscription.rs:572-797 | what is read back of a location that survives is read back as itself from then on |
| Text.SplitListJoin | src-tauri/src/xray.rs:504-509 | a list that was split survives being joined and split again |
| Text.ParseDecimal | src-tauri/src/subscription.rs:608-610 | a printed number parses back |
| ManualConfigurations.MergeManualConfigurations | src/lib/manual-configurations.ts:18-70 | the passes of the source compute the merge that the laws below are about |
| ManualConfigurations.MergeIsConservative | src/lib/manual-configurations.ts:18-70 | remote items stay, in order and untouched; the servers of the manual ones stay, in order, on at most one card |
| ManualConfigurations.CardTakesFirstPlace | src/lib/manual-configurations.ts:63-69 | the card stands where the first manual item stood |
| ManualConfigurations.CardIsComplete | src/lib/manual-configurations.ts:33-60 | the source of a card is complete or absent |
| ManualConfigurations.CardIsNamed | src/lib/manual-configurations.ts:18-70 | there is one card, under the address of the first manual item, and its name is that of one server or of several |
| ManualConfigurations.MergeIsIdempotent | src/lib/manual-configurations.ts:18-70 | merging twice changes nothing |
| ManualConfigurations.MergeIsConfluent | src/lib/manual-configurations.ts:18-70 | what was merged may be merged again with anything |
| ManualConfigurations.ImportsMerge | src/lib/subs.svelte.ts:390-392 | importing one after the other comes to the same as merging everything at once |
| Refresh.NextIsLeastFutureBoundary | src/lib/subscription-refresh.ts:1-18 | the next refresh is the least boundary after both now and the last success |
| Refresh.NextRefreshBatch | src/lib/subscription-refresh.ts:32-58 | the minimum over all usable candidates with exactly those due then, in order; nothing exactly when none is usable |

## Left out

- Win32, DPAPI, netsh, adapter enumeration, job objects, named pipes and access control: foreign calls; each is a step that may fail, with its effect stated.
- Health checks, the SOCKS probe, DNS lookups, timeouts and sleeps: nondeterministic outcomes.
- Backend.WindowsBackend.VerifyCandidate: what makes a tunnel healthy is the environment's choice; only the empty slot and a machine on which nothing fails are decided.
- World.Machine.Exit: a process exits on its own between operations only; within one, that is among the failures of its health checks.
- Commands.Command: the version that a connect runs on, the one that was activated and whether the old one could be put back are given with the command; `Coherence` models how they come about.
- JSON text, base64, URL and percent decoding: values are trees, a text and the tree it parses to are one; numbers are integers. The journal codec takes the text of a record, and what the parser makes of a payload, as parameters.
- The share-link and WireGuard-file parsers: what they make of the strings in a subscription is a parameter of `Locations.Collect`.
- Labels, identifiers, packet encodings and source texts of locations: no modelled builder reads them.
- Routes.RouteFileFits: does not print addresses; it takes their texts to be no longer than 45 characters, the longest an address prints as.
- Address.SortDedup: orders by number where the source orders by text, because only the absence of duplicates and the set of addresses matter to any reader of the list.
- Refresh.NextIsLeastFutureBoundary: does not model the rounding of floating-point numbers; times are real numbers, and dates or intervals that are not finite read as nothing.
- Refresh.NextRefreshBatch: the same.
- ManualConfigurations.Item: has the fields of the interface only; further fields of a card are those of the first manual card.
- Coherence.Step: does not model the normalisation of version tags or the removal of the bundled executable from outside; tags are normalised and the bundled version is always there.
- RoundTrip.ParseAfterBuild: what the URL library makes of the endpoint text of a WireGuard peer is a parameter.
- Locations.Collect: leaves out labels and source texts, so the source that is passed down the recursion does not appear.
- The configuration of the tunnel adapter's own addresses and routes, validation.json, logs, download and extraction of Xray releases, release lists and version ordering: no property above depends on them.
- The user interface, tray, application discovery, theming, pings and the installer.
- Cancellation of a task at service shutdown, and scheduling finer than the two mutexes.
