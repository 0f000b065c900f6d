/**
 The fields of the agent's Appium process manager as one value, and the synchronous
 bookkeeping operations on them (agent/agent_app/appium/process.py).

 Processes and asyncio tasks are identified by numbers that are never reused. Time is
 the event loop's clock, an abstract `real` that only moves forward.
 */
module ManagerState {
  import opened Options

  type Port = nat
  type Pid = nat
  type TaskId = nat
  type Time = real

  const MAX_RESTART_EVENTS: nat := 200
  const AUTO_RESTART_MAX_ATTEMPTS: nat := 5
  const AUTO_RESTART_WINDOW_SEC: Time := 300.0
  const FIRST_RESTART_WITHHOLD_MAX_SEC: Time := 60.0
  const WITHHOLD_OWNERSHIP_MAX_SEC: Time := AUTO_RESTART_WINDOW_SEC
  const AUTO_RESTART_DELAYS_SEC: seq<nat> := [1, 2, 4, 8, 16, 30]

  datatype EventKind = CrashDetected | RestartSucceeded | RestartExhausted | PortConflict

  /** `at` is the event's `occurred_at` stamp, read on the same clock as everything else. */
  datatype Event = Event(sequence: nat, kind: EventKind, port: Port, pid: Option<Pid>, attempt: nat,
                         delay: Option<nat>, at: Time, willRetry: bool)

  /** The first, in-progress restart of a port, held back from the status push. */
  datatype Withheld = Withheld(sequence: nat, expiresAt: Time, armedAt: Time, charged: bool)

  /** What a node serves: the resolved connection target and the platform. */
  datatype Identity = Identity(target: string, platform: string)

  datatype Info = Info(pid: Pid, identity: Identity)

  datatype Spec = Spec(identity: Identity, stopPending: bool)

  /** The per-port tables of processes and tasks. */
  datatype Nodes = Nodes(procs: map<Port, Pid>, info: map<Port, Info>, specs: map<Port, Spec>,
                         restartTasks: map<Port, TaskId>, watchTasks: map<Port, TaskId>)

  datatype Manager = Manager(
    nodes: Nodes,
    attempts: map<Port, seq<Time>>,
    backoff: map<Port, nat>,
    stopPending: set<Port>,
    intentionalStop: set<Port>,
    ring: seq<Event>,
    lastSequence: nat,
    withheld: map<Port, Withheld>)

  const FRESH_MANAGER: Manager :=
    Manager(Nodes(map[], map[], map[], map[], map[]), map[], map[], {}, {}, [], 0, map[])

  /** The newest MAX_RESTART_EVENTS entries: what a bounded deque keeps. */
  function Newest(events: seq<Event>): (r: seq<Event>) {
    if |events| <= MAX_RESTART_EVENTS then events else events[|events| - MAX_RESTART_EVENTS..]
  }

  /** The event the manager would record next. */
  function NextEvent(m: Manager, kind: EventKind, port: Port, pid: Option<Pid>, attempt: nat,
                     delay: Option<nat>, willRetry: bool, now: Time): (e: Event)
  {
    Event(m.lastSequence + 1, kind, port, pid, attempt, delay, now, willRetry)
  }

  function RecordEvent(m: Manager, e: Event): (r: Manager) {
    m.(lastSequence := m.lastSequence + 1, ring := Newest(m.ring + [e]))
  }

  function ReleaseWithhold(m: Manager, port: Port): (r: Manager) {
    m.(withheld := m.withheld - {port})
  }

  /** A port's list of times in a table where an absent port has none. */
  function TimesOf(table: map<Port, seq<Time>>, port: Port): (h: seq<Time>) {
    if port in table then table[port] else []
  }

  /** Drop the charged attempts that are older than the restart window. */
  function Trim(history: seq<Time>, now: Time): (r: seq<Time>)
    ensures |r| <= |history| && r == history[|history| - |r|..]
    ensures forall i :: 0 <= i < |history| - |r| ==> now - history[i] > AUTO_RESTART_WINDOW_SEC
    ensures r != [] ==> now - r[0] <= AUTO_RESTART_WINDOW_SEC
  {
    if history != [] && now - history[0] > AUTO_RESTART_WINDOW_SEC then Trim(history[1..], now) else history
  }

  /** The number the next attempt would have. */
  function NextAttempt(m: Manager, port: Port, now: Time): (r: nat) {
    |Trim(TimesOf(m.attempts, port), now)| + 1
  }

  function TrimAttempts(m: Manager, port: Port, now: Time): (r: Manager) {
    m.(attempts := m.attempts[port := Trim(TimesOf(m.attempts, port), now)])
  }

  /** Append one attempt to the port's restart history, after trimming it. */
  function ChargeAttempt(m: Manager, port: Port, now: Time): (r: Manager) {
    m.(attempts := m.attempts[port := Trim(TimesOf(m.attempts, port), now) + [now]])
  }

  function BackoffStep(m: Manager, port: Port): (r: nat) {
    if port in m.backoff then m.backoff[port] else 0
  }

  function NextDelay(m: Manager, port: Port): (r: nat) {
    var step := BackoffStep(m, port);
    AUTO_RESTART_DELAYS_SEC[if step < |AUTO_RESTART_DELAYS_SEC| then step else |AUTO_RESTART_DELAYS_SEC| - 1]
  }

  function AdvanceBackoff(m: Manager, port: Port): (r: Manager) {
    var next := BackoffStep(m, port) + 1;
    m.(backoff := m.backoff[port := if next < |AUTO_RESTART_DELAYS_SEC| then next else |AUTO_RESTART_DELAYS_SEC| - 1])
  }

  /** Hold back the crash just recorded with number `sequence`. */
  function Arm(m: Manager, port: Port, sequence: nat, now: Time): (r: Manager) {
    m.(withheld := m.withheld[port := Withheld(sequence, now + FIRST_RESTART_WITHHOLD_MAX_SEC, now, false)])
  }

  function MarkCharged(m: Manager, port: Port): (r: Manager) {
    if port in m.withheld then m.(withheld := m.withheld[port := m.withheld[port].(charged := true)]) else m
  }

  /** Drop a withhold nobody owns once it is too old to be adopted. */
  function ReapStale(m: Manager, port: Port, now: Time): (r: Manager) {
    if port !in m.nodes.restartTasks && port in m.withheld
       && now - m.withheld[port].armedAt > WITHHOLD_OWNERSHIP_MAX_SEC
    then ReleaseWithhold(m, port)
    else m
  }

  /** Whether a start holding the lock takes over the port's withhold. */
  predicate Adopts(m: Manager, port: Port) {
    port !in m.nodes.restartTasks && port in m.withheld
  }

  /** `_cancel_task` on the restart tasks: an entry survives only when the caller is that task itself. */
  function DropRestartTask(n: Nodes, port: Port, self: TaskId): (r: Nodes) {
    if port in n.restartTasks && n.restartTasks[port] == self then n
    else n.(restartTasks := n.restartTasks - {port})
  }

  function ForgetNode(n: Nodes, port: Port, self: TaskId): (r: Nodes) {
    DropRestartTask(n, port, self).(
      watchTasks := n.watchTasks - {port},
      procs := n.procs - {port},
      info := n.info - {port},
      specs := n.specs - {port})
  }

  /** `_forget_port`: lift the withhold, drop the port's tasks and all its bookkeeping. */
  function ForgetPort(m: Manager, port: Port, self: TaskId): (r: Manager) {
    m.(withheld := m.withheld - {port},
       nodes := ForgetNode(m.nodes, port, self),
       attempts := m.attempts - {port},
       backoff := m.backoff - {port})
  }

  /** Settle an adopted withhold; `pid` is the respawned process, if there is one. */
  function Discharge(m: Manager, port: Port, pid: Option<Pid>, now: Time): (r: Manager) {
    var settled :=
      if pid.None? then m
      else
        var recorded := RecordEvent(m, NextEvent(m, RestartSucceeded, port, pid, 1, None, false, now));
        if port in m.withheld && m.withheld[port].charged then recorded else ChargeAttempt(recorded, port, now);
    ReleaseWithhold(settled, port)
  }

  predicate Running(n: Nodes, alive: set<Pid>, port: Port) {
    port in n.procs && n.procs[port] in alive
  }

  /** Some other port already runs this identity (`_running_info_for_target`). */
  predicate ServedElsewhere(n: Nodes, alive: set<Pid>, identity: Identity, port: Port) {
    exists q :: q in n.info && q != port && Running(n, alive, q) && n.info[q].identity == identity
  }
}
