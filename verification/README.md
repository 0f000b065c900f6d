# GridFleet agent and router: models and proofs

GridFleet drives real and emulated devices through Appium. An *agent* on each host keeps one Appium
process per device running, loads driver packs and reports to a *backend*; a *router* forwards
WebDriver sessions to the right Appium. This project models the concurrent parts of the agent and the
router in Dafny and proves what they promise over every interleaving. `dafny verify dfyconfig.toml`
checks all of it.

Where the source changes state between awaits, the model is a step machine: a step is one stretch of
code between two awaits, `Enabled` says when it may happen, `Apply` what it does, and the theorems speak
of every reachable state or every run. Subprocesses, HTTP calls, adapter hooks and clocks are choices
of the environment. Where the source keeps the state in an object, a class beside the machine has its
fields and loops; its methods are proved against the operations the machine is built from (the lock
table of the downloads, whose entries are shared by reference, against the machine's counts).

| file | models |
|---|---|
| `ManagerState`, `ManagerSteps` | the Appium process manager: its tables, and watcher, auto-restart, start, stop and shutdown as interleaved steps |
| `ManagerInvariant`, `ManagerOperations`, `ManagerTransitions`, `ManagerSafety` | its inductive invariant and the proof that every step keeps it |
| `ManagerPublication`, `EventFeed` | what a status push publishes, and the backend's cursor over lost, repeated and reordered pushes |
| `ManagerTheorems`, `ChargeBounds`, `OrphanCharges`, `SixAttempts` | what holds of every run of the manager, and one promise that does not, with its exact condition |
| `ProcessManager` | the manager's methods on its own fields |
| `Routes`, `RouteRaces` | the router's route map and the rebuilds that race with it |
| `NodeState`, `Convergence` | the node state loop and its convergence |
| `Packs`, `PackLoop`, `PackRaces`, `PackPass` | driver packs: registries, pack state loop, start gate, and the two interleaved |
| `PackRows`, `PackPins`, `PackAgreement`, `PackDisagreement` | when status table and start gate agree, when a pinned worker is safe, and runs on which neither is so |
| `NewSession` | the router's new-session handler |
| `LiveSessions` | live-session verdicts of the probe loop |
| `WorkerCalls` | calls to a supervised adapter worker |
| `FetchLocks` | the lock table of the tarball download |

## Findings

- The source says a port gets at most five restart attempts in 300 s. That is not so.
  `SixAttempts.SixAttemptsInOneWindow` is a run of 31 s, every delay and timeout as in the code, that
  charges six within 30 s: an adopting start finds its withhold record gone and charges all the same
  (`agent/agent_app/appium/process.py:712`), and a restart task that was asleep meanwhile charges without
  looking at the limit again (`agent/agent_app/appium/process.py:872-874`).
  `ChargeBounds.FiveAttemptsIff` is the exact condition, for every run: the bound holds if and only if no
  step charges the port while five unexpired attempts are on its books; `ChargeBounds.ChargesExactly`
  names the charging steps. Six is the most there ever is (`ManagerTheorems.AttemptsAreSpaced`), and five
  is kept where no adopting start finds its record gone (`OrphanCharges.FiveAttemptsUnlessRecordGone`).
- The pack status and the start gate can disagree. `PackDisagreement` has two runs that end with a pack
  reported installed which the gate defers: one id listed twice (the table reports the last entry, the
  gate reads the first), and a worker left loaded for a release that is listed again without its tarball.
  `PackRows.InstalledRowClearsIff` is the exact condition on every reachable state;
  `PackAgreement.InstalledIsNeverDeferred` shows neither arises when ids are distinct and a release keeps
  its content.
- A removed route can come back: `RouteRaces.RemovedRouteComesBack` is a run in which a rebuild fetched
  before the session ended reinstates the route. It happens exactly when the listing swapped in names the
  session (`RouteRaces.ResurrectedExactlyWhenListed`).
- A start can mix two releases after the pack loop crashed and was rebuilt (`agent/agent_app/lifespan.py:505-524`):
  the desired list is then unknown while the registries keep their content, and the gate falls back on the
  current worker without looking at the runtime. `PackDisagreement.RebuiltLoopMixesReleases` is a run that
  spawns release 1 with its worker on the runtime of release 2. With the list known at revalidation the
  releases always coincide (`PackRaces.SpawnsAreCoherent`); with it unknown they do if and only if the
  runtime carries the stamp of the current worker's release (`PackRaces.UnknownListSpawnIff`). Only a crash
  that the loop's own `except Exception` does not catch rebuilds it.
- A worker whose key is pinned can be reaped: `PackDisagreement.BareReleaseIsDoomed` is a run in which a
  loaded release is listed again without platforms and pinned while that list's reap is under way.
  `PackPins.PinnedKeyStaysIff` is the exact condition.
- The class of worker handles does not stop its first start at shutdown
  (`WorkerCalls.ShutdownDuringFirstStart`); `WorkerCalls.ShutdownIsFinal` and
  `WorkerCalls.FirstStartOutlivesShutdown` say exactly when shutdown is final. The agent cancels the pack
  loop's task, and with it such a start, before it shuts the workers down
  (`agent/agent_app/lifespan.py:539-541`), and then it is final (`WorkerCalls.CancelledFirstStartIsFinal`).
- A device that a snapshot reports once with its id and once without has two independent graces, so it can
  be denied a live session 1 s after it was seen active (`LiveSessions.AlternatingKeysForget`). Where the
  nodes of the denying gather carry their ids, the denial speaks of every sight under the id
  (`LiveSessions.NoLiveSessionForDevice`).
- Convergence fails for a launch that names another port than its spec; `Convergence.ConvergesIffOwnPorts`
  shows that this is the only obstacle.

## Model

| member | source | states |
|---|---|---|
| EventFeed.EveryEventExactlyOnce | agent/agent_app/appium/process.py:1479-1577 | over every interleaving of the manager with lost, repeated and reordered pushes, pushes are stretches of one history whose ends never move back, nothing is ingested twice or out of order, the cursor has reached the end of every delivered push, and without a ring overrun the backend holds exactly the first cursor-many events |
| EventFeed.OldEventsAreIngested | agent/agent_app/appium/process.py:1568-1606 | an event still in the ring of a push assembled at least 60 s after it was recorded is ingested, in its own place, once that push is delivered |
| EventFeed.PushHoldsTheOld | agent/agent_app/appium/process.py:1579-1606 | every push holds whatever is in the ring and 60 s old |
| EventFeed.HorizonNeverDecreases | agent/agent_app/appium/process.py:1568-1572 | no step of any party lowers the highest sequence number a push may contain |
| EventFeed.StepAdvances | agent/agent_app/appium/process.py:799-821 | no step forgets an event or withholds an event recorded before it |
| EventFeed.IngestKeeps | backend/app/appium_nodes/services/heartbeat.py:226-248 | taking the events above the cursor from any push keeps the ingested numbers strictly growing and, without a gap, a prefix of the history |
| EventFeed.AboveIsSuffix | backend/app/appium_nodes/services/heartbeat.py:244-247 | the candidates of a contiguous push are exactly its part above the cursor |
| EventFeed.FeedRunKeeps | backend/app/appium_nodes/services/heartbeat.py:464-573 | the manager, the pushes in flight and the cursor keep their joint invariant along every run |
| ManagerPublication.PushIsContiguous | agent/agent_app/appium/process.py:1568-1572 | what a push emits is one contiguous stretch of everything ever recorded, ending at the lowest active withhold |
| ManagerPublication.SuppressionIsBounded | agent/agent_app/appium/process.py:1579-1606 | an event recorded 60 s ago and still in the ring is in every push, whatever became of the withhold's owner |
| ManagerPublication.TruncationIsUnique | agent/agent_app/appium/process.py:1509-1511 | the cut of a push is determined by the active withholds |
| ManagerPublication.TruncationExists | agent/agent_app/appium/process.py:1579-1606 | every set of withholds has a cut |
| ManagerPublication.EmitIsPrefix | agent/agent_app/appium/process.py:1568-1572 | filtering the ring by the cut keeps a prefix of it |
| ManagerTheorems.RespawnSettlesOnce | agent/agent_app/appium/process.py:680-736 | when the owner or an adopting start brings a withheld port up, exactly one success event is recorded, the withhold is lifted, and over its life the attempt was charged once and settled once |
| ManagerTheorems.LiftedAfterRecording | agent/agent_app/appium/process.py:917-988 | recording the success before lifting the withhold, as the code does within the one step, gives the same state |
| ManagerTheorems.NeverChargedOrSettledTwice | agent/agent_app/appium/process.py:872-988 | in every reachable state no withheld crash has been charged or settled twice, nor settled uncharged |
| ManagerTheorems.AdoptionIsTimely | agent/agent_app/appium/process.py:1209-1224 | only a fresh start call adopts, only a record armed at most 300 s ago, and only when every auto-restart task of the port is cancelled |
| ManagerTheorems.AttemptsAreSpaced | agent/agent_app/appium/process.py:576-587 | no 300 s window holds more than six charged attempts, nor more than five unless one was charged without a record |
| ChargeBounds.FiveAttemptsIff | agent/agent_app/appium/process.py:79-81 | for every run and port, no 300 s window ever holds more than five attempts between two forgets if and only if no step charges the port while five unexpired attempts are on its books |
| ChargeBounds.SixthExactly | agent/agent_app/appium/process.py:576-587 | on every reachable state a charge completes six in a window if and only if five were unexpired before it |
| ChargeBounds.ChargesExactly | agent/agent_app/appium/process.py:872-874 | a step appends to the charges of a port exactly when a restart task wakes past its guards with the port down or an adopting start comes up with its record gone or uncharged |
| ChargeBounds.StepBreaksIff | agent/agent_app/appium/process.py:712-722 | a step breaks the bound if and only if it charges a sixth |
| ManagerTheorems.AtMostFiveStarts | agent/agent_app/appium/process.py:788-941 | a restart loop whose iterations take at most 60 s makes at most five starts |
| ManagerTheorems.OneLiveProcessPerIdentity | agent/agent_app/appium/process.py:562-574 | at every await, two tracked live processes differ in port, pid and (target, platform) |
| ManagerTheorems.SpawnsAreExclusive | agent/agent_app/appium/process.py:1203-1312 | while one start spawns, nobody else is inside the start lock and its port and identity stay unserved |
| ManagerTheorems.SnapshotIsConsistent | agent/agent_app/appium/process.py:1479-1577 | each withheld port is listed once, a live port is never coalesced, and session activity is reported only for the very (port, pid) that was sampled |
| ManagerSafety.StepKeepsInv | agent/agent_app/appium/process.py:763-1366 | every step of watchers, restarts, starts, stops, reconfigurations and shutdown keeps the invariant |
| ManagerSafety.RunKeepsInv | agent/agent_app/appium/process.py:763-1366 | hence every run keeps it |
| ManagerSafety.ReachableInv | agent/agent_app/appium/process.py:380-433 | and every state reachable from a fresh manager satisfies it |
| OrphanCharges.OrphanedExactlyWhenGone | agent/agent_app/appium/process.py:712-722 | a step charges without a record if and only if it completes an adopting start whose record is gone |
| OrphanCharges.FiveAttemptsUnlessRecordGone | agent/agent_app/appium/process.py:79-81 | on every run where that never happens to a port, no 300 s window holds more than five of its attempts |
| SixAttempts.SixAttemptsInOneWindow | agent/agent_app/appium/process.py:712-722 | a reachable state, 31 s into a run with the code's own delays, has six attempts charged within 30 s; the adopting start that finds its record gone comes up at 20 s |
| ManagerState.Trim | agent/agent_app/appium/process.py:576-587 | what is left of an attempt history is a suffix, nothing expired is kept at its head |
| ProcessManager.BeginAttemptIsLoopHead | agent/agent_app/appium/process.py:788-858 | the method that begins an attempt is the machine's loop head |
| ProcessManager.DischargeIsSettle | agent/agent_app/appium/process.py:680-736 | discharging an adopted restart is the machine's settlement |
| ProcessManager.AppiumProcessManager.TrimRestartAttempts | agent/agent_app/appium/process.py:576-587 | the deque loop leaves exactly the attempts inside the window |
| ProcessManager.AppiumProcessManager.RecordRestartEvent | agent/agent_app/appium/process.py:589-617 | the event gets the next number and the ring keeps the newest 200 |
| ProcessManager.AppiumProcessManager.ReleaseFirstRestartObservation | agent/agent_app/appium/process.py:619-629 | the withhold of that port alone is lifted |
| ProcessManager.AppiumProcessManager.CancelRestartTask | agent/agent_app/appium/process.py:529-546 | the entry goes, except when it is the caller itself |
| ProcessManager.AppiumProcessManager.ReapStaleWithhold | agent/agent_app/appium/process.py:631-678 | a record past its ownership ceiling is dropped, any other kept |
| ProcessManager.AppiumProcessManager.DischargeAdoptedRestart | agent/agent_app/appium/process.py:680-736 | respawned or not, the record is charged as needed and lifted after its event |
| ProcessManager.AppiumProcessManager.TakeOverPort | agent/agent_app/appium/process.py:1203-1224 | cancel, reap, then decide adoption on what is left |
| ProcessManager.AppiumProcessManager.ForgetAppiumPort | agent/agent_app/appium/process.py:1343-1358 | every table entry of the port is gone, every other port untouched |
| ProcessManager.AppiumProcessManager.PinLaunchSpec | agent/agent_app/appium/process.py:1256-1267 | the launch spec and both stop flags become those of the committed start |
| ProcessManager.AppiumProcessManager.RegisterSpawned | agent/agent_app/appium/process.py:1268-1298 | the new process is tracked, described and watched as the machine says |
| ProcessManager.AppiumProcessManager.ReconfigureNode | agent/agent_app/appium/process.py:1314-1341 | an unknown port is refused, a known one gets the flags in spec and stop set |
| ProcessManager.AppiumProcessManager.BeginStop | agent/agent_app/appium/process.py:1434-1446 | the port is marked, forgotten and its process handed over |
| ProcessManager.AppiumProcessManager.ChargeBeforeStart | agent/agent_app/appium/process.py:872-881 | the attempt is on the books and the record marked before any start |
| ProcessManager.AppiumProcessManager.BeginAttempt | agent/agent_app/appium/process.py:788-858 | crash recorded, first attempt withheld, sixth refused with an exhaustion event |
| ProcessManager.AppiumProcessManager.ActiveWithholds | agent/agent_app/appium/process.py:1579-1606 | exactly the unexpired records |
| ProcessManager.AppiumProcessManager.LowestSequence | agent/agent_app/appium/process.py:1509-1511 | the least withheld number, if any |
| ProcessManager.AppiumProcessManager.RunningViews | agent/agent_app/appium/process.py:1512-1523 | one view per live port |
| ProcessManager.AppiumProcessManager.RetainedViews | agent/agent_app/appium/process.py:1525-1537 | one coalesced view per withheld dead port |
| ProcessManager.AppiumProcessManager.ProcessSnapshot | agent/agent_app/appium/process.py:1479-1577 | the node list and the emitted events agree on one cut |
| ProcessManager.AppiumProcessManager.EmittedEvents | agent/agent_app/appium/process.py:1568-1572 | the ring up to the cut |
| RouteRaces.LiveSessionIsRouted | router/src/routes.rs:96-161 | however captures, fetches and swaps overlap, a session inserted, not removed and still listed is in the map under its own upstream |
| RouteRaces.NoRouteIsCrossed | router/src/routes.rs:132-161 | no route, live or stale, points at another session's target |
| RouteRaces.LateRebuildDrops | router/src/tasks.rs:36-52 | a rebuild captured after the end and the last insert drops the route |
| RouteRaces.EvictionIsPermanent | router/src/proxy.rs:261-279 | once every rebuild that fetched before the end is spent, the next one captured after the end and the last insert evicts for good: no run brings the route back without an insert, whatever else is in flight |
| RouteRaces.ResurrectedExactlyWhenListed | router/src/routes.rs:132-161 | an absent route comes back in a swap if and only if the listing swapped in names it |
| RouteRaces.OldListingsOnly | router/src/tasks.rs:41-50 | a listing that names an ended session was captured and fetched before the end |
| RouteRaces.SpentFetchesDrain | router/src/tasks.rs:41-50 | so an ended session is drained once no rebuild that fetched before the end is in flight |
| RouteRaces.RemovedRouteComesBack | router/src/proxy.rs:208-219 | a run inserts and removes a route, its session ends, and an older rebuild reinstates it |
| RouteRaces.SwapLeaves | router/src/routes.rs:132-161 | a swap leaves exactly the listed routes and those younger than its capture, each with its own stamp |
| RouteRaces.StepKeeps | router/src/proxy.rs:208-279 | every step of rows, inserts, removes and rebuilds keeps the invariant |
| RouteRaces.ReachableInv | router/src/routes.rs:67-85 | which holds in every reachable state |
| Routes.CollectHolds | router/src/routes.rs:134-147 | collecting a listing names exactly its sessions, stamped with the captured generation |
| Routes.RouteMap.Get | router/src/routes.rs:88-95 | the upstream of a known session, none otherwise |
| Routes.RouteMap.InsertRoute | router/src/routes.rs:96-107 | the route is stamped with a generation no earlier capture has |
| Routes.RouteMap.RemoveRoute | router/src/routes.rs:108-110 | that route alone goes, the generation stays |
| Routes.RouteMap.InsertGeneration | router/src/routes.rs:122-124 | the generation a later swap compares against |
| Routes.RouteMap.ReplaceIfUnchanged | router/src/routes.rs:132-161 | the two loops compute the listing overlaid with every younger route |
| Routes.RouteMap.Overlay | router/src/routes.rs:149-159 | the second loop keeps exactly the routes inserted after the capture |
| Convergence.ThreePassesConverge | agent/agent_app/appium/node_state.py:52-223 | from any running state three passes over a stable list with launches for their own ports end in exactly the desired nodes, targets, restarts and flags |
| Convergence.ConvergesIffOwnPorts | agent/agent_app/appium/node_state.py:157-160 | for a stable list, three passes converge from every running state if and only if every launch names its own spec's port |
| Convergence.ConvergedIsQuiet | agent/agent_app/appium/node_state.py:70-223 | a further pass starts, stops and reconfigures nothing |
| Convergence.TwoPassesMayNotSuffice | agent/agent_app/appium/node_state.py:98-223 | two passes can end with the launch's flags instead of the desired ones |
| Convergence.FirstPassCleans | agent/agent_app/appium/node_state.py:52-68 | after one pass only desired nodes on their own targets are left |
| Convergence.LaterPass | agent/agent_app/appium/node_state.py:70-223 | from there a pass brings every desired node up and corrects the flags of those that were up |
| Convergence.NothingBlocks | agent/agent_app/appium/process.py:1228-1238 | on such a state the duplicate-target rule refuses no start |
| NodeState.NodeStateLoop.RunOnce | agent/agent_app/appium/node_state.py:52-68 | the loop over specs and the orphan sweep compute one pass, calls included |
| NodeState.NodeStateLoop.Converge | agent/agent_app/appium/node_state.py:70-223 | one spec: the manager's nodes, the loop's own table and the calls made |
| NodeState.NodeStateLoop.SweepOrphans | agent/agent_app/appium/node_state.py:63-68 | exactly the orphans are stopped, in ascending order |
| NodeState.Manager.StartNode | agent/agent_app/appium/process.py:1228-1238 | a start is refused on a taken port or a target served elsewhere, else leaves one new node |
| NodeState.Manager.FindTarget | agent/agent_app/appium/process.py:562-574 | the scan finds a duplicate if and only if another port serves the target and platform |
| NodeState.Manager.SetFlags | agent/agent_app/appium/process.py:1314-1341 | only the flags of that port change |
| NodeState.Manager.StopNode | agent/agent_app/appium/process.py:1434-1456 | that node alone goes |
| NodeState.CallsAccumulate | agent/agent_app/appium/node_state.py:52-68 | what a pass does does not depend on the calls made before it |
| PackRaces.SpawnsAreCoherent | agent/agent_app/appium/process.py:1240-1256 | in every spawn whose revalidation saw the list, the requested, pinned, runtime and worker releases are one, however passes, starts and rebuilds of the loop interleave; in any other they are if and only if the runtime is stamped with the pinned release |
| PackRaces.UnknownListSpawnIff | agent/agent_app/appium/process.py:455-468 | a commit while the list is unknown spawns a coherent node if and only if the runtime carries the stamp of the current worker's release |
| PackRaces.UnknownListClearsIff | agent/agent_app/appium/process.py:455-468 | with the list unknown the gate clears exactly the starts the current worker can serve |
| PackDisagreement.RebuiltLoopMixesReleases | agent/agent_app/lifespan.py:505-524 | a run in which the loop is rebuilt between a runtime install and its worker's load spawns one release on another's runtime |
| PackRaces.PinnedWorkerStays | agent/agent_app/pack/state.py:303-319 | a worker bound by a launch spec stays registered while that spec exists, across every await of the reap |
| PackPins.PinnedKeyStaysIff | agent/agent_app/pack/state.py:303-319 | whatever the lists hold, a loaded worker whose key is pinned stays registered on every run that keeps the key pinned if and only if no reap under way is still to come to the key with neither its list nor its retained set naming it |
| PackPins.DroppedExactly | agent/agent_app/pack/adapter_registry.py:71-77 | a step unregisters a worker if and only if it is the reap coming to a key neither desired nor retained |
| PackPins.BoundIsNotDoomed | agent/agent_app/appium/process.py:428-433 | a worker bound by any launch spec meets that condition |
| PackDisagreement.BareReleaseIsDoomed | agent/agent_app/pack/state.py:304-316 | a run that pins a loaded release listed without platforms during its reap loses the worker while the key is pinned |
| PackAgreement.PinnedKeyIsNeverReaped | agent/agent_app/pack/state.py:303-319 | where releases keep their content, every pinned and loaded key stays registered on every run that keeps it pinned |
| PackRaces.UnknownListDefers | agent/agent_app/appium/process.py:455-468 | until the first list of the first loop object no start gets through |
| PackRaces.GateIsCoherent | agent/agent_app/appium/process.py:435-512 | a cleared gate names a registered worker of its release; with the list known also a runtime built for it and a worker the reap under way keeps |
| PackRaces.StepKeeps | agent/agent_app/pack/state.py:94-327 | every step of the pass and of a start keeps the invariant |
| PackRaces.ReachableInv | agent/agent_app/pack/state.py:94-98 | which holds in every reachable state |
| PackAgreement.InstalledIsNeverDeferred | agent/agent_app/pack/state.py:122-292 | from the moment a pack is reported installed until the next desired list, the gate clears it for that release |
| PackRows.InstalledRowClearsIff | agent/agent_app/appium/process.py:469-512 | on every reachable state, whatever the lists hold, the gate clears a row reported installed if and only if the pack first listed under its id has that release and what the gate asks for; when the row speaks of that pack, if and only if no leftover worker stands in for a missing adapter |
| PackRows.EveryPackReportedOnce | agent/agent_app/pack/state.py:120-124 | after the visits every listed id has exactly one row, for the release last listed under it |
| PackRows.StepKeepsRows | agent/agent_app/pack/state.py:122-327 | every step keeps what the rows written so far say |
| PackDisagreement.DuplicateIdsDisagree | agent/agent_app/pack/state.py:120-124 | a run with one id listed twice ends with an installed row the gate defers |
| PackDisagreement.LeftoverWorkerDisagrees | agent/agent_app/pack/state.py:222-275 | a run that lists a loaded release again without its tarball ends with an installed row the gate defers |
| PackAgreement.LoadedMeansBound | agent/agent_app/appium/process.py:485-512 | a start that finds its worker loaded is bound to it |
| Packs.InstalledClearsGateIff | agent/agent_app/appium/process.py:485-512 | exactly when a pack judged installed is cleared by the gate reading that very pack |
| Packs.DeferredIsBlocked | agent/agent_app/pack/state.py:197-275 | a deferred pack reports blocked, leftover workers aside |
| Packs.OneEntryPerPack | agent/agent_app/pack/state.py:120-292 | a pass publishes exactly one row per listed id, for the release last listed under it |
| Packs.DeclaredHooks | agent/agent_app/pack/adapter_dispatch.py:49-53 | only a pack with platforms declares hooks |
| Packs.MissingHooks | agent/agent_app/pack/adapter_dispatch.py:56-57 | nothing is missing if and only if every declared hook is supported |
| Packs.Visited | agent/agent_app/pack/state.py:120 | one pack per id, by first mention |
| PackPass.PassIsRun | agent/agent_app/pack/state.py:94-327 | a pass of the loop object is a run of the interleaved model, so its theorems speak of the loop |
| PackLoop.PackStateLoop.RunOnce | agent/agent_app/pack/state.py:94-327 | published list, one row per id, and both registries after a pass |
| PackLoop.PackStateLoop.constructor | agent/agent_app/lifespan.py:316-325 | a rebuilt loop keeps the registries and knows no list |
| PackLoop.PackStateLoop.Visit | agent/agent_app/pack/state.py:122-292 | one pack: row and registries |
| PackLoop.PackStateLoop.Judge | agent/agent_app/pack/state.py:194-275 | the verdict on an installed runtime |
| PackLoop.PackStateLoop.LoadWorker | agent/agent_app/lifespan.py:275-299 | the loader registers a worker, marks an adapterless release, or leaves the registry alone |
| PackLoop.PackStateLoop.Reap | agent/agent_app/pack/state.py:303-319 | the loop drops exactly the workers neither desired nor retained |
| PackLoop.PackStateLoop.Resolve | agent/agent_app/appium/process.py:435-512 | the gate's decision, branch by branch |
| PackLoop.AdapterRegistry.Set | agent/agent_app/pack/adapter_registry.py:32-36 | worker registered and current, mark lifted |
| PackLoop.AdapterRegistry.Remove | agent/agent_app/pack/adapter_registry.py:71-77 | worker, mark and, if it was current, the pointer go |
| PackLoop.AdapterRegistry.GetCurrent | agent/agent_app/pack/adapter_registry.py:58-65 | the worker the current pointer leads to, none if that worker is gone |
| PackLoop.RuntimeRegistry.SetForPack | agent/agent_app/pack/runtime_registry.py:16-22 | environment and stamp change together |
| PackLoop.RuntimeRegistry.PurgeExcept | agent/agent_app/pack/runtime_registry.py:35-48 | the loop drops exactly the packs not listed, stamps included |
| NewSession.Router.HandleNewSession | router/src/proxy.rs:298-492 | at most one route, for an observed routable session; a lost session leaves no route and is deleted and reported; a held ticket is cancelled on client-gone, fatal and deadline exits; at most one response, with the status of the exit; without teardown over within the timeout plus 322 s |
| NewSession.Router.Await | router/src/proxy.rs:318-452 | which exit the long poll takes, after exactly which turns, with exactly which ticket cancelled, and by when |
| NewSession.Router.Relay | router/src/proxy.rs:453-492 | a created session is routed and delivered, or undone |
| NewSession.Router.TearDown | router/src/proxy.rs:496-507 | the Appium delete and the end notice are always attempted, the route pruned when there is one |
| NewSession.Router.ReadBody | router/src/proxy.rs:304-316 | a body is accepted if and only if it is readable and within one mebibyte |
| NewSession.Router.CancelHeld | router/src/proxy.rs:348-350 | the ticket in hand is cancelled, nothing else |
| NewSession.Router.RefusalStatus | router/src/proxy.rs:374-451 | the status owed to a client whose request ends without a session |
| NewSession.Router.Resolve | router/src/proxy.rs:261-279 | a known session is looked up without touching the map; a miss rebuilds once under the generation captured before the fetch |
| NewSession.WaitingAddsNothing | router/src/proxy.rs:318-452 | waiting touches no route |
| LiveSessions.ProbeLoop.Gather | agent/agent_app/probes.py:251-258 | the history gains exactly what the nodes and the unmatched entries look up; an entry with an id is live exactly when its join key was active, unknown or first seen less than 60 s ago |
| LiveSessions.ProbeLoop.GatherAll | agent/agent_app/probes.py:251-258 | over any sequence of gathers each verdict on an entry with an id is that of everything looked up since the beginning |
| LiveSessions.NoLiveSessionMeans | agent/agent_app/probes.py:168-249 | when a gather denies a live session, its key was looked up by a gather at least 60 s before, and no gather in the last 60 s saw a node of that key active or unknown |
| LiveSessions.NoLiveSessionForDevice | agent/agent_app/probes.py:168-249 | where the nodes of the denying gather carry their ids, the device was first looked up at least 60 s before and no gather in the last 60 s saw a node with its id active or unknown |
| LiveSessions.IdentifiedJoinsById | agent/agent_app/probes.py:239-244 | such an entry is judged by its id alone |
| LiveSessions.SightsStampOwnKeyOnly | agent/agent_app/probes.py:168-191 | a sight under one key leaves the verdict on every other key as it was |
| LiveSessions.AlternatingKeysForget | agent/agent_app/probes.py:209-220 | a device seen active without its id is denied 1 s later under its id |
| LiveSessions.ProbeLoop.ResolveLive | agent/agent_app/probes.py:168-191 | one timestamp per key decides the same as the whole history |
| LiveSessions.ProbeLoop.LiveSessionFlags | agent/agent_app/probes.py:193-220 | which keys get a verdict, which targets are owned, and that verdicts by id are those of the history |
| LiveSessions.ProbeLoop.FlagNode | agent/agent_app/probes.py:209-220 | one node: its key is looked up once and the verdict published under its keys |
| LiveSessions.ProbeLoop.ResolveEntry | agent/agent_app/probes.py:222-249 | which lookup the entry makes, if any; an entry with an id gets the verdict of its join key, one with a target only that of the flags or of the target's history, one with neither none |
| LiveSessions.NodesCombineAsOr | agent/agent_app/probes.py:209-220 | nodes with one id combine as a logical or whatever their order |
| LiveSessions.SilenceMeansQuiet | agent/agent_app/probes.py:168-191 | a negative verdict means first seen at least 60 s ago and only inactive since |
| LiveSessions.LastStampDecides | agent/agent_app/probes.py:168-191 | the latest stamp alone decides |
| LiveSessions.JoinKey | agent/agent_app/probes.py:239-244 | an entry is never judged by a node with a different id |
| WorkerCalls.IdsAreNeverReused | agent/agent_app/pack/worker_supervisor.py:64-79 | through any number of restarts an id keeps its request, is not given out again, and a resolved future never changes |
| WorkerCalls.AnswersAreOwn | agent/agent_app/pack/worker_supervisor.py:208-220 | although a process may answer anything ever written to it at any time, an answered request was answered by the process it was written to, and no other process ever got that id |
| WorkerCalls.DeadHasNoPending | agent/agent_app/pack/worker_supervisor.py:118-136 | a handle that is not alive has no pending request |
| WorkerCalls.DeathResolvesPending | agent/agent_app/pack/worker_supervisor.py:228-242 | whatever ends the worker resolves every pending call exactly once |
| WorkerCalls.ShutdownIsFinal | agent/agent_app/pack/worker_supervisor.py:118-130 | once shutdown has begun, with or without a restart under way, no run schedules or advances one; unless the first start is still to spawn, nothing is spawned; a dead handle whose first start is over stays dead with nothing pending |
| WorkerCalls.FirstStartOutlivesShutdown | agent/agent_app/pack/worker_supervisor.py:156-206 | of the class alone, those conditions are exact: a first start that is not cancelled can spawn and come up after shutdown |
| WorkerCalls.ShutdownDuringFirstStart | agent/agent_app/pack/worker_supervisor.py:118-130 | a run reaches such a state and comes up |
| WorkerCalls.CancelledFirstStartIsFinal | agent/agent_app/lifespan.py:539-541 | where the first start is cancelled with the shutdown, nothing is spawned and the handle stays dead |
| WorkerCalls.StepKeeps | agent/agent_app/pack/worker_supervisor.py:64-261 | every step keeps the invariant |
| WorkerCalls.WorkerHandle.BeginCall | agent/agent_app/pack/worker_supervisor.py:64-76 | refused unless up, else a fresh id is pending |
| WorkerCalls.WorkerHandle.EndCall | agent/agent_app/pack/worker_supervisor.py:92-93 | that request alone is forgotten |
| WorkerCalls.WorkerHandle.ReadResponse | agent/agent_app/pack/worker_supervisor.py:212-218 | only a pending, unresolved request takes the answer |
| WorkerCalls.WorkerHandle.FailAllPending | agent/agent_app/pack/worker_supervisor.py:132-136 | the loop fails exactly the pending unresolved requests and clears the table |
| WorkerCalls.WorkerHandle.HandleFailure | agent/agent_app/pack/worker_supervisor.py:228-234 | acts once, only while alive and not shutting down |
| WorkerCalls.WorkerHandle.KillForTimeout | agent/agent_app/pack/worker_supervisor.py:236-242 | acts once, only while alive |
| WorkerCalls.WorkerHandle.ScheduleRestart | agent/agent_app/pack/worker_supervisor.py:244-248 | never while shutting down, never a second one |
| WorkerCalls.WorkerHandle.FinishShutdown | agent/agent_app/pack/worker_supervisor.py:124-126 | dead, nothing pending, process let go |
| FetchLocks.CallersShareOneEntry | agent/agent_app/pack/tarball_fetch.py:37-45 | all callers of a path share the one entry in the table and its count is their number |
| FetchLocks.FetchesExclude | agent/agent_app/pack/tarball_fetch.py:103-108 | at most one caller of a path is in the fetch section |
| FetchLocks.EntryLivesWithCallers | agent/agent_app/pack/tarball_fetch.py:47-51 | the table has an entry for a path if and only if the path has a caller |
| FetchLocks.ReturnedWasVerified | agent/agent_app/pack/tarball_fetch.py:107-131 | a caller whose comparison of file or body let it return had the expected digest on disk while it held the lock |
| FetchLocks.WitnessIsReal | agent/agent_app/pack/tarball_fetch.py:69-86 | that witness is recorded only for the lock's holder with the digest on disk |
| FetchLocks.WrongBodyFails | agent/agent_app/pack/tarball_fetch.py:76-79 | a body with another digest leaves the file alone and fails as any fetch does |
| FetchLocks.EnterAdmits | agent/agent_app/pack/tarball_fetch.py:37-45 | a caller that enters is counted in, for its path alone |
| FetchLocks.LeaveDismisses | agent/agent_app/pack/tarball_fetch.py:47-51 | a caller that leaves is counted out, and the last takes the entry along |
| FetchLocks.StepKeeps | agent/agent_app/pack/tarball_fetch.py:103-131 | every step keeps the invariant |
| FetchLocks.LockTable.GetOrCreate | agent/agent_app/pack/tarball_fetch.py:37-45 | the existing entry or a fresh one; the counts move as when a caller of the machine enters |
| FetchLocks.LockTable.Release | agent/agent_app/pack/tarball_fetch.py:47-51 | the counts move as when a caller of the machine leaves; another entry under the path is left alone |

## Left out

- Subprocess spawning, sockets, readiness polling, log files, port reclaim, HTTP and JSON: choices of the environment.
- The order in which waiters get a lock: any waiter may be next.
- Agent restarts: the backend's cursor is scoped to one boot, and the model covers one boot.
- Persistence of ingested events and device state in the backend: only its restart-event cursor is modelled.
- Exit codes, timestamps in text form, log lines and metrics: they decide nothing.
- Integer width of the router's insert generation: it counts without bound here, in 64 bits in the source.
- Parsing of upstream targets: whether a target parses is an input.
- Host-resolved targets in the convergence theorem: the loop deliberately does not compare them.
- Whether `post_session` fires: `stop()` unpins the spec before it dispatches, so nothing is promised.
- Crashes of nodes in the middle of a convergence pass: the theorem is about a stable world.
- Doctor entries, runtime entries and release-mismatch logging of the loops: reports only.
- Two concurrent starts of one worker by the supervisor: the pack loop is the only caller and is sequential, so a handle has one first start.
- `ActivityTracker`, the status-push limiter, the installer, the CLI, the frontend and the migrations: easy or plumbing.
- ManagerTheorems.AttemptsAreSpaced: states six where the source says five, because five is false; `ChargeBounds.FiveAttemptsIff` is the exact condition.
- Convergence.ThreePassesConverge: needs the launch of each spec to name the spec's own port; `Convergence.ConvergesIffOwnPorts` shows the need.
- LiveSessions.ProbeLoop.Gather: treats one gather as a unit, and gathers as one after the other; `ResolveLive` alone is stated for any interleaving whose stamps do not go back in time.
- NewSession.Router.HandleNewSession: the time bound is for the moment the reply begins; writing the reply and the teardown calls are not timed.
- FetchLocks.ReturnedWasVerified: a caller cancelled inside the release itself is excluded, as its count would never be given back.
- OrphanCharges.FiveAttemptsUnlessRecordGone: one direction only; the equivalence is `ChargeBounds.FiveAttemptsIff`.
- Packs.InstalledClearsGateIff: speaks of one pack; `PackRows.InstalledRowClearsIff` speaks of the pack the gate picks from the list.
- PackRaces.PinnedWorkerStays: follows one bound spec; `PackPins.PinnedKeyStaysIff` follows the key.
- PackRaces.UnknownListDefers: false after a rebuild of the loop, which `PackRaces.UnknownListClearsIff` covers.
