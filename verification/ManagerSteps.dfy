/**
 The process manager as a step machine. A step is one region of code between two awaits;
 the steps of watchers, auto-restart tasks, `start()` calls, `stop()` calls and
 reconfigurations interleave freely. Subprocesses, hooks and HTTP are outcomes the
 environment picks.

 A cancelled task keeps its place until its next step, which then is the delivery of the
 cancellation at the await it sits on.
 */
module ManagerSteps {
  import opened Options
  import opened ManagerState

  datatype Role = Watcher | AutoRestart | StartCall | StopCall

  datatype Stage =
    | Created                                    // task scheduled, body not entered
    | Watching(pid: Pid)                         // process.wait()
    | Backoff                                    // asyncio.sleep(delay_sec)
    | Resolving                                  // adapter hooks, outside the start lock
    | Waiting(identity: Identity, stops: bool)   // start lock requested, launch spec assembled
    | Spawning(identity: Identity, stops: bool, adopted: bool)  // inside _start_appium_server, lock held
    | StopWaiting                                // stop(): start lock requested
    | Stopping(victim: Option<Pid>)              // stop(): terminating the process, lock held

  /**
   Locals of one `_auto_restart_appium` loop; `wakeAt` is when its sleep ends. `starts`, `began`, `top` and `timely` are
   bookkeeping for the run-length theorem: how many starts this task made, when its first
   and its current iteration began, and whether every finished iteration took at most 60 s.
   */
  datatype Loop = Loop(sequence: nat, isFirst: bool, attempt: nat, wakeAt: Time, starts: nat, began: Time, top: Time,
                       timely: bool)

  const NO_LOOP: Loop := Loop(0, false, 0, 0.0, 0, 0.0, 0.0, true)

  const ITERATION_BOUND_SEC: Time := 60.0

  datatype Task = Task(role: Role, port: Port, stage: Stage, cancelled: bool, loop: Loop)

  /** What happened to one withheld crash while it was withheld. */
  datatype Account = Account(charges: nat, settled: nat)

  /**
   An observer's record of the run; no step reads it. `history` is every event ever
   recorded, `accounts` follows each withheld crash by its sequence number, `log` is every
   attempt charged to a port since it was last forgotten, and `orphaned` names the ports
   where an adopting start charged an attempt although the record it adopted was gone.
   */
  datatype Audit = Audit(history: seq<Event>, accounts: map<nat, Account>, log: map<Port, seq<Time>>,
                         orphaned: set<Port>)

  datatype Sys = Sys(m: Manager, now: Time, alive: set<Pid>, lock: Option<TaskId>, tasks: map<TaskId, Task>,
                     nextPid: Pid, nextTask: TaskId, audit: Audit)

  const INITIAL: Sys := Sys(FRESH_MANAGER, 0.0, {}, None, map[], 0, 0, Audit([], map[], map[], {}))

  datatype Failure = Deferred | AlreadyRunning | PortOccupied | Failed

  datatype Action =
    | Tick(elapsed: Time)
    | ProcessExits(pid: Pid)
    | WatcherFires(task: TaskId)
    | CancelDelivered(task: TaskId)
    | CallCancelled(task: TaskId)                // somebody cancels a start() or stop() call
    | RestartEntryCleared(port: Port)            // done-callbacks of finished tasks
    | WatchEntryCleared(port: Port)
    | RestartBegins(task: TaskId)
    | BackoffEnds(task: TaskId)
    | StartCalled(port: Port)
    | HooksDone(task: TaskId, identity: Identity, stops: bool)
    | HooksFail(task: TaskId, failure: Failure)
    | LockTaken(task: TaskId, deferred: bool)
    | SpawnFails(task: TaskId, failure: Failure)
    | SpawnSucceeds(task: TaskId)
    | StopCalled(port: Port)
    | StopLocked(task: TaskId)
    | StopDone(task: TaskId)
    | Reconfigured(port: Port, stops: bool)
    | ShutdownSweep

  predicate HoldsLock(stage: Stage) {
    stage.Spawning? || stage.Stopping?
  }

  predicate At(s: Sys, t: TaskId) {
    t in s.tasks && !s.tasks[t].cancelled
  }

  predicate Enabled(s: Sys, a: Action) {
    match a
    case Tick(elapsed) => elapsed >= 0.0
    case ProcessExits(pid) => pid in s.alive
    case WatcherFires(t) => At(s, t) && s.tasks[t].stage.Watching? && s.tasks[t].stage.pid !in s.alive
    case CancelDelivered(t) => t in s.tasks && s.tasks[t].cancelled
    case CallCancelled(t) => t in s.tasks && s.tasks[t].role in {StartCall, StopCall}
    case RestartEntryCleared(p) => p in s.m.nodes.restartTasks && s.m.nodes.restartTasks[p] !in s.tasks
    case WatchEntryCleared(p) => p in s.m.nodes.watchTasks && s.m.nodes.watchTasks[p] !in s.tasks
    case RestartBegins(t) => At(s, t) && s.tasks[t].stage.Created?
    case BackoffEnds(t) => At(s, t) && s.tasks[t].stage.Backoff? && s.now >= s.tasks[t].loop.wakeAt
    case StartCalled(p) => !Running(s.m.nodes, s.alive, p)
    case HooksDone(t, _, _) => At(s, t) && s.tasks[t].stage.Resolving?
    case HooksFail(t, f) => At(s, t) && s.tasks[t].stage.Resolving? && f in {Deferred, Failed}
    case LockTaken(t, _) => At(s, t) && s.tasks[t].stage.Waiting? && s.lock.None?
    case SpawnFails(t, f) => At(s, t) && s.tasks[t].stage.Spawning? && f in {PortOccupied, Failed}
    case SpawnSucceeds(t) => At(s, t) && s.tasks[t].stage.Spawning?
    case StopCalled(_) => true
    case StopLocked(t) => At(s, t) && s.tasks[t].stage.StopWaiting? && s.lock.None?
    case StopDone(t) => At(s, t) && s.tasks[t].stage.Stopping?
    case Reconfigured(p, _) => p in s.m.nodes.info
    case ShutdownSweep => true
  }

  function SetTask(s: Sys, t: TaskId, task: Task): (r: Sys) {
    s.(tasks := s.tasks[t := task])
  }

  function Spawn(s: Sys, task: Task): (r: Sys) {
    s.(tasks := s.tasks[s.nextTask := task], nextTask := s.nextTask + 1)
  }

  function CancelFlag(tasks: map<TaskId, Task>, t: TaskId): (r: map<TaskId, Task>) {
    if t in tasks then tasks[t := tasks[t].(cancelled := true)] else tasks
  }

  /** Request cancellation of whatever task the map holds for the port, unless it is `self`. */
  function CancelEntry(tasks: map<TaskId, Task>, entries: map<Port, TaskId>, p: Port, self: TaskId)
    : (r: map<TaskId, Task>)
  {
    if p in entries && entries[p] != self then CancelFlag(tasks, entries[p]) else tasks
  }

  function Record(s: Sys, kind: EventKind, p: Port, pid: Option<Pid>, attempt: nat, delay: Option<nat>,
                  willRetry: bool): (r: Sys) {
    var e := NextEvent(s.m, kind, p, pid, attempt, delay, willRetry, s.now);
    s.(m := RecordEvent(s.m, e), audit := s.audit.(history := s.audit.history + [e]))
  }

  function KnownPid(m: Manager, p: Port): (r: Option<Pid>) {
    if p in m.nodes.info then Some(m.nodes.info[p].pid) else None
  }

  function Forget(s: Sys, p: Port, self: TaskId): (r: Sys) {
    s.(m := ForgetPort(s.m, p, self),
       tasks := CancelEntry(CancelEntry(s.tasks, s.m.nodes.restartTasks, p, self), s.m.nodes.watchTasks, p, self),
       audit := s.audit.(log := s.audit.log - {p}, orphaned := s.audit.orphaned - {p}))
  }

  /** The `finally` of an attempt that is not handing its withhold over. */
  function ReleaseIfFirst(s: Sys, p: Port, loop: Loop): (r: Sys) {
    if loop.isFirst then s.(m := ReleaseWithhold(s.m, p)) else s
  }

  /** Hold back the crash recorded last. */
  function ArmLatest(s: Sys, p: Port): (r: Sys) {
    s.(m := Arm(s.m, p, s.m.lastSequence, s.now),
       audit := s.audit.(accounts := s.audit.accounts[s.m.lastSequence := Account(0, 0)]))
  }

  /** The sixth crash inside the window: recorded, and given up on. */
  function Exhaust(s: Sys, p: Port, attempt: nat): (r: Sys) {
    Record(Record(s, CrashDetected, p, KnownPid(s.m, p), attempt, None, false),
           RestartExhausted, p, KnownPid(s.m, p), attempt, None, false)
  }

  function Sleeping(p: Port, loop: Loop, sequence: nat, attempt: nat, wakeAt: Time): (r: Task) {
    Task(AutoRestart, p, Backoff, false, loop.(sequence := sequence, isFirst := attempt == 1, attempt := attempt,
                                               wakeAt := wakeAt))
  }

  /** From the head of `while True` in `_auto_restart_appium` to its sleep, or to its return. */
  function LoopHead(s: Sys, t: TaskId, p: Port, loop: Loop): (r: Sys) {
    if p in s.m.intentionalStop || p in s.m.stopPending then Leave(s, t)
    else
      var trimmed := s.(m := TrimAttempts(s.m, p, s.now));
      var attempt := NextAttempt(s.m, p, s.now);
      if attempt > AUTO_RESTART_MAX_ATTEMPTS then Leave(Exhaust(trimmed, p, attempt), t)
      else
        var crashed := Record(trimmed, CrashDetected, p, KnownPid(s.m, p), attempt, Some(NextDelay(s.m, p)), true);
        SetTask(if attempt == 1 then ArmLatest(crashed, p) else crashed, t,
                Sleeping(p, loop, crashed.m.lastSequence, attempt, s.now + NextDelay(s.m, p) as real))
  }

  function FirstIteration(now: Time): (r: Loop) {
    Loop(0, false, 0, now, 0, now, now, true)
  }

  function NextIteration(loop: Loop, now: Time): (r: Loop) {
    loop.(top := now, timely := loop.timely && now - loop.top <= ITERATION_BOUND_SEC)
  }

  predicate OwnsRecord(s: Sys, p: Port, loop: Loop) {
    loop.isFirst && p in s.m.withheld && s.m.withheld[p].sequence == loop.sequence
  }

  /** Bump the account of the crash the port withholds, if there is one. */
  function Tally(s: Sys, p: Port, charge: bool, settle: bool): (r: Audit) {
    if p in s.m.withheld && s.m.withheld[p].sequence in s.audit.accounts then
      var q := s.m.withheld[p].sequence;
      var a := s.audit.accounts[q];
      s.audit.(accounts := s.audit.accounts[q := Account(a.charges + (if charge then 1 else 0),
                                                         a.settled + (if settle then 1 else 0))])
    else s.audit
  }

  function Logged(audit: Audit, s: Sys, p: Port): (r: Audit) {
    audit.(log := audit.log[p := TimesOf(s.audit.log, p) + [s.now]])
  }

  /** The attempt goes on the books before `start()` runs. */
  function Charge(s: Sys, p: Port, loop: Loop): (r: Sys) {
    s.(m := MarkCharged(ChargeAttempt(s.m, p, s.now), p),
       audit := Logged(Tally(s, p, OwnsRecord(s, p, loop), false), s, p))
  }

  /** The task has left `start()`, or has just woken: it holds no lock and is between awaits. */
  function Park(s: Sys, t: TaskId): (r: Sys)
    requires t in s.tasks
  {
    s.(lock := if s.lock == Some(t) then None else s.lock, tasks := s.tasks[t := s.tasks[t].(stage := Created)])
  }

  /** The task returns or raises, releasing the start lock if it held it. */
  function Leave(s: Sys, t: TaskId): (r: Sys) {
    s.(lock := if s.lock == Some(t) then None else s.lock, tasks := s.tasks - {t})
  }

  /** From the end of the backoff sleep to the first await of `start()`. */
  function Wake(s: Sys, t: TaskId, p: Port, loop: Loop): (r: Sys)
    requires t in s.tasks
  {
    if p in s.m.intentionalStop || p in s.m.stopPending || p !in s.m.nodes.specs then
      ReleaseIfFirst(Leave(s, t), p, loop)
    else
      var charged := Charge(Park(s, t), p, loop);
      if Running(s.m.nodes, s.alive, p) then Forget(Leave(charged, t), p, t)
      else SetTask(charged, t, Task(AutoRestart, p, Resolving, false,
                                    loop.(starts := loop.starts + 1, attempt := |TimesOf(charged.m.attempts, p)|)))
  }

  /** `start()` raised: how its caller goes on. */
  function StartRaises(s: Sys, t: TaskId, failure: Failure): (r: Sys)
    requires t in s.tasks
  {
    var task := s.tasks[t];
    if task.role != AutoRestart || failure == Deferred then Leave(s, t)
    else if failure == AlreadyRunning then Forget(Leave(s, t), task.port, t)
    else if failure == PortOccupied then
      Forget(Record(Leave(s, t), PortConflict, task.port, KnownPid(s.m, task.port), task.loop.attempt, None, false),
             task.port, t)
    else
      var parked := Park(s, t);
      LoopHead(ReleaseIfFirst(parked.(m := AdvanceBackoff(s.m, task.port)), task.port, task.loop), t, task.port,
               NextIteration(task.loop, s.now))
  }

  /** An adopting start leaves without a respawn. */
  function DischargeUnserved(s: Sys, p: Port, adopted: bool): (r: Sys) {
    if adopted then s.(m := Discharge(s.m, p, None, s.now)) else s
  }

  /** Under the start lock: cancel the port's auto-restart task, then drop a withhold too old to adopt. */
  function TakeOver(s: Sys, p: Port, self: TaskId): (r: Sys) {
    s.(m := ReapStale(s.m.(nodes := DropRestartTask(s.m.nodes, p, self)), p, s.now),
       tasks := CancelEntry(s.tasks, s.m.nodes.restartTasks, p, self))
  }

  /** Pin the launch spec and go on to spawn, holding the lock. */
  function Committed(s: Sys, t: TaskId, task: Task): (r: Sys)
    requires task.stage.Waiting?
  {
    var m := s.m;
    var p := task.port;
    var pinned := m.(nodes := m.nodes.(specs := m.nodes.specs[p := Spec(task.stage.identity, task.stage.stops)]),
                     intentionalStop := m.intentionalStop - {p},
                     stopPending := if task.stage.stops then m.stopPending + {p} else m.stopPending - {p});
    SetTask(s.(m := pinned, lock := Some(t)), t,
            task.(stage := Spawning(task.stage.identity, task.stage.stops, Adopts(m, p))))
  }

  /** The start lock was just acquired: cancel, reap, decide on adoption, revalidate, pin the spec. */
  function EnterStart(s: Sys, t: TaskId, deferred: bool): (r: Sys)
    requires t in s.tasks && s.tasks[t].stage.Waiting?
  {
    var task := s.tasks[t];
    var p := task.port;
    var cancelled := TakeOver(s, p, t);
    var adopted := Adopts(cancelled.m, p);
    if Running(s.m.nodes, s.alive, p) || ServedElsewhere(s.m.nodes, s.alive, task.stage.identity, p) then
      StartRaises(DischargeUnserved(cancelled, p, adopted), t, AlreadyRunning)
    else if deferred then
      StartRaises(cancelled, t, Deferred)
    else
      Committed(cancelled, t, task)
  }

  /** Register the new process, its watcher and its info. */
  function Register(s: Sys, p: Port, identity: Identity, stops: bool, self: TaskId): (r: Sys) {
    var pid := s.nextPid;
    var m := s.m.(nodes := s.m.nodes.(procs := s.m.nodes.procs[p := pid],
                                      info := s.m.nodes.info[p := Info(pid, identity)],
                                      watchTasks := s.m.nodes.watchTasks[p := s.nextTask]),
                  stopPending := if stops then s.m.stopPending + {p} else s.m.stopPending);
    Spawn(s.(m := m, alive := s.alive + {pid}, nextPid := pid + 1,
             tasks := CancelEntry(s.tasks, s.m.nodes.watchTasks, p, self)),
          Task(Watcher, p, Watching(pid), false, NO_LOOP))
  }

  /** Charge the withheld attempt unless it is charged already, and lift the withhold. */
  function SettleAdopted(s: Sys, p: Port): (r: Sys)
    requires p in s.m.withheld
  {
    var charges := !s.m.withheld[p].charged;
    var tallied := Tally(s, p, charges, true);
    s.(m := ReleaseWithhold(if charges then ChargeAttempt(s.m, p, s.now) else s.m, p),
       audit := if charges then Logged(tallied, s, p) else tallied)
  }

  /** The record this start adopted is gone; the attempt is charged all the same. */
  function ChargeOrphan(s: Sys, p: Port): (r: Sys) {
    s.(m := ChargeAttempt(s.m, p, s.now),
       audit := Logged(s.audit.(orphaned := s.audit.orphaned + {p}), s, p))
  }

  /** An adopting start respawned the port: pair the crash with its resolving event and settle the record. */
  function Settle(s: Sys, p: Port, pid: Pid): (r: Sys) {
    var recorded := Record(s, RestartSucceeded, p, Some(pid), 1, None, false);
    if p in s.m.withheld then SettleAdopted(recorded, p) else ChargeOrphan(recorded, p)
  }

  /** The record of the task's own first attempt counts as settled and is lifted. */
  function SettleOwn(s: Sys, p: Port, loop: Loop): (r: Sys) {
    ReleaseIfFirst(s.(audit := Tally(s, p, false, OwnsRecord(s, p, loop))), p, loop)
  }

  /** The auto-restart task's own start succeeded. */
  function Recovered(s: Sys, p: Port, pid: Pid, loop: Loop): (r: Sys) {
    var settled := SettleOwn(s.(m := s.m.(backoff := s.m.backoff - {p})), p, loop);
    Record(settled, RestartSucceeded, p, Some(pid), loop.attempt, Some(NextDelay(s.m, p)), false)
  }

  function Respawned(s: Sys, t: TaskId): (r: Sys)
    requires t in s.tasks && s.tasks[t].stage.Spawning?
  {
    var task := s.tasks[t];
    var up := Register(Leave(s, t), task.port, task.stage.identity, task.stage.stops, t);
    var settled := if task.stage.adopted then Settle(up, task.port, s.nextPid) else up;
    if task.role == AutoRestart then Recovered(settled, task.port, s.nextPid, task.loop) else settled
  }

  /** `CancelledError` surfaces at the await the task sits on. */
  function Cancelled(s: Sys, t: TaskId): (r: Sys)
    requires t in s.tasks
  {
    var task := s.tasks[t];
    Leave(DischargeUnserved(s, task.port, task.stage.Spawning? && task.stage.adopted), t)
  }

  /** The watcher saw its process exit. */
  function Watched(s: Sys, t: TaskId): (r: Sys)
    requires t in s.tasks && s.tasks[t].stage.Watching?
  {
    var p := s.tasks[t].port;
    var done := Leave(s, t);
    if p !in s.m.nodes.procs || s.m.nodes.procs[p] != s.tasks[t].stage.pid || p in s.m.intentionalStop then done
    else if p in s.m.nodes.restartTasks && s.m.nodes.restartTasks[p] in s.tasks then done
    else Spawn(done.(m := done.m.(nodes := done.m.nodes.(restartTasks := done.m.nodes.restartTasks[p := s.nextTask]))),
               Task(AutoRestart, p, Created, false, NO_LOOP))
  }

  function StopBegins(s: Sys, t: TaskId): (r: Sys)
    requires t in s.tasks
  {
    var p := s.tasks[t].port;
    var victim := if p in s.m.nodes.procs then Some(s.m.nodes.procs[p]) else None;
    var forgotten := Forget(s, p, t);
    SetTask(forgotten.(m := forgotten.m.(intentionalStop := s.m.intentionalStop + {p}), lock := Some(t)), t,
            s.tasks[t].(stage := Stopping(victim)))
  }

  function StopEnds(s: Sys, t: TaskId): (r: Sys)
    requires t in s.tasks && s.tasks[t].stage.Stopping?
  {
    var victim := s.tasks[t].stage.victim;
    Leave(s.(m := s.m.(intentionalStop := s.m.intentionalStop - {s.tasks[t].port}),
             alive := if victim.Some? then s.alive - {victim.value} else s.alive), t)
  }

  function Reconfigure(s: Sys, p: Port, stops: bool): (r: Sys) {
    var specs := s.m.nodes.specs;
    s.(m := s.m.(nodes := s.m.nodes.(specs := if p in specs then specs[p := specs[p].(stopPending := stops)]
                                     else specs),
                 stopPending := if stops then s.m.stopPending + {p} else s.m.stopPending - {p}))
  }

  /** The tail of `shutdown()`: lift every withhold, cancel every registered task. */
  function Sweep(s: Sys): (r: Sys) {
    s.(m := s.m.(withheld := map[], nodes := s.m.nodes.(restartTasks := map[], watchTasks := map[])),
       tasks := map t | t in s.tasks ::
                  if t in s.m.nodes.restartTasks.Values || t in s.m.nodes.watchTasks.Values
                     then s.tasks[t].(cancelled := true) else s.tasks[t])
  }

  function Apply(s: Sys, a: Action): (r: Sys)
    requires Enabled(s, a)
  {
    match a
    case Tick(elapsed) => s.(now := s.now + elapsed)
    case ProcessExits(pid) => s.(alive := s.alive - {pid})
    case WatcherFires(t) => Watched(s, t)
    case CancelDelivered(t) => Cancelled(s, t)
    case CallCancelled(t) => s.(tasks := CancelFlag(s.tasks, t))
    case RestartEntryCleared(p) => s.(m := s.m.(nodes := s.m.nodes.(restartTasks := s.m.nodes.restartTasks - {p})))
    case WatchEntryCleared(p) => s.(m := s.m.(nodes := s.m.nodes.(watchTasks := s.m.nodes.watchTasks - {p})))
    case RestartBegins(t) => LoopHead(s, t, s.tasks[t].port, FirstIteration(s.now))
    case BackoffEnds(t) => Wake(s, t, s.tasks[t].port, s.tasks[t].loop)
    case StartCalled(p) => Spawn(s, Task(StartCall, p, Resolving, false, NO_LOOP))
    case HooksDone(t, identity, stops) => SetTask(s, t, s.tasks[t].(stage := Waiting(identity, stops)))
    case HooksFail(t, f) => StartRaises(s, t, f)
    case LockTaken(t, deferred) => EnterStart(s, t, deferred)
    case SpawnFails(t, f) => StartRaises(DischargeUnserved(s, s.tasks[t].port, s.tasks[t].stage.adopted), t, f)
    case SpawnSucceeds(t) => Respawned(s, t)
    case StopCalled(p) => Spawn(s, Task(StopCall, p, StopWaiting, false, NO_LOOP))
    case StopLocked(t) => StopBegins(s, t)
    case StopDone(t) => StopEnds(s, t)
    case Reconfigured(p, stops) => Reconfigure(s, p, stops)
    case ShutdownSweep => Sweep(s)
  }

  /** A run of the machine from `s`. */
  ghost predicate IsRun(s: Sys, actions: seq<Action>, r: Sys)
    decreases |actions|
  {
    if actions == [] then s == r
    else Enabled(s, actions[0]) && IsRun(Apply(s, actions[0]), actions[1..], r)
  }

  ghost predicate Reachable(s: Sys) {
    exists actions :: IsRun(INITIAL, actions, s)
  }
}
