/**
 Facts every step of the process manager keeps. Each group names exactly the fields it
 reads, so that an operation owes a proof only for the groups whose fields it writes.
 */
module ManagerInvariant {
  import opened Options
  import opened ManagerState
  import opened ManagerSteps

  // ---- The event ring ----

  /** Events numbered 1, 2, 3, ... with stamps that never go back, the last no later than `now`. */
  ghost predicate Chronicle(h: seq<Event>, now: Time) {
    h == [] || (var e := h[|h| - 1]; e.sequence == |h| && e.at <= now && Chronicle(h[..|h| - 1], e.at))
  }

  /** The ring holds the newest part of a chronicle of everything recorded. */
  ghost predicate EventsOk(history: seq<Event>, ring: seq<Event>, lastSequence: nat, now: Time) {
    |history| == lastSequence && ring == Newest(history) && Chronicle(history, now)
  }

  // ---- Processes ----

  ghost predicate NodesOk(n: Nodes, alive: set<Pid>, nextPid: Pid) {
    && n.procs.Keys == n.info.Keys
    && n.procs.Keys <= n.specs.Keys
    && (forall p :: p in n.procs ==> n.info[p].pid == n.procs[p] && n.procs[p] < nextPid)
    && (forall p, q :: p in n.procs && q in n.procs && n.procs[p] == n.procs[q] ==> p == q)
    && (forall pid :: pid in alive ==> pid < nextPid)
    && UniqueIdentities(n, alive)
  }

  /** No two ports run the same identity. */
  ghost predicate UniqueIdentities(n: Nodes, alive: set<Pid>) {
    forall p, q ::
      (p in n.info && q in n.info && Running(n, alive, p) && Running(n, alive, q)
       && n.info[p].identity == n.info[q].identity) ==> p == q
  }

  // ---- Tasks and the start lock ----

  predicate StageFits(task: Task) {
    match task.role
    case Watcher => task.stage.Watching?
    case AutoRestart => task.stage.Created? || task.stage.Backoff? || task.stage.Resolving? || task.stage.Waiting?
                        || task.stage.Spawning?
    case StartCall => task.stage.Resolving? || task.stage.Waiting? || task.stage.Spawning?
    case StopCall => task.stage.StopWaiting? || task.stage.Stopping?
  }

  /**
   An auto-restart task nobody cancelled is the one registered for its port, and the port
   still has process info. A start holding the lock has its port down and its identity unserved.
   */
  ghost predicate TaskOk(n: Nodes, alive: set<Pid>, lock: Option<TaskId>, t: TaskId, task: Task) {
    && StageFits(task)
    && (task.role == AutoRestart && !task.cancelled ==>
          task.port in n.restartTasks && n.restartTasks[task.port] == t && task.port in n.info)
    && (HoldsLock(task.stage) ==> lock == Some(t))
    && (task.stage.Spawning? ==>
          && !Running(n, alive, task.port)
          && !ServedElsewhere(n, alive, task.stage.identity, task.port)
          && task.port in n.specs
          && (task.role == AutoRestart ==> !task.stage.adopted))
  }

  ghost predicate EntryOk(tasks: map<TaskId, Task>, nextTask: TaskId, p: Port, t: TaskId, role: Role) {
    t < nextTask && (t in tasks ==> tasks[t].role == role && tasks[t].port == p && !tasks[t].cancelled)
  }

  ghost predicate TasksOk(n: Nodes, alive: set<Pid>, lock: Option<TaskId>, tasks: map<TaskId, Task>, nextTask: TaskId) {
    && (forall t :: t in tasks ==> t < nextTask && TaskOk(n, alive, lock, t, tasks[t]))
    && (forall p :: p in n.restartTasks ==> EntryOk(tasks, nextTask, p, n.restartTasks[p], AutoRestart))
    && (forall p :: p in n.watchTasks ==> EntryOk(tasks, nextTask, p, n.watchTasks[p], Watcher))
    && (lock.Some? ==> lock.value in tasks && HoldsLock(tasks[lock.value].stage))
  }

  // ---- Withheld crashes ----

  /** A withheld record names a recorded crash of its own port, charged as its flag says and not settled. */
  ghost predicate RecordOk(p: Port, w: Withheld, history: seq<Event>, accounts: map<nat, Account>,
                           attempts: map<Port, seq<Time>>,
                           info: map<Port, Info>)
  {
    && 1 <= w.sequence <= |history|
    && history[w.sequence - 1].port == p
    && history[w.sequence - 1].kind == CrashDetected
    && history[w.sequence - 1].at == w.armedAt
    && w.expiresAt == w.armedAt + FIRST_RESTART_WITHHOLD_MAX_SEC
    && w.sequence in accounts
    && accounts[w.sequence] == Account(if w.charged then 1 else 0, 0)
    && (!w.charged ==> TimesOf(attempts, p) == [])
    && p in info
  }

  ghost predicate AccountOk(a: Account) {
    a.charges <= 1 && a.settled <= 1 && (a.settled == 1 ==> a.charges == 1)
  }

  ghost predicate RecordsOk(withheld: map<Port, Withheld>, history: seq<Event>, accounts: map<nat, Account>,
                            attempts: map<Port, seq<Time>>, info: map<Port, Info>)
  {
    && (forall p :: p in withheld ==> RecordOk(p, withheld[p], history, accounts, attempts, info))
    && (forall q :: q in accounts ==> q <= |history| && AccountOk(accounts[q]))
  }

  /** A task between its arming and its exit finds its own record or none; a later attempt finds only charged ones. */
  ghost predicate OwnerOk(task: Task, withheld: map<Port, Withheld>) {
    task.role == AutoRestart && !task.cancelled && !task.stage.Created? && task.port in withheld ==>
      && (task.loop.isFirst ==> withheld[task.port].sequence == task.loop.sequence)
      && (withheld[task.port].charged <==> !(task.loop.isFirst && task.stage.Backoff?))
  }

  ghost predicate OwnersOk(tasks: map<TaskId, Task>, withheld: map<Port, Withheld>) {
    forall t :: t in tasks ==> OwnerOk(tasks[t], withheld)
  }

  // ---- Charged attempts ----

  ghost predicate Spaced(log: seq<Time>, n: nat) {
    forall i, j :: 0 <= i && j == i + n && j < |log| ==> log[j] - log[i] > AUTO_RESTART_WINDOW_SEC
  }

  ghost predicate Ascending(log: seq<Time>, now: Time) {
    && (forall i, j :: 0 <= i < j < |log| ==> log[i] <= log[j])
    && (forall i :: 0 <= i < |log| ==> log[i] <= now)
  }

  /** A port's history is the recent end of everything charged to it. */
  ghost predicate HistoryOk(h: seq<Time>, log: seq<Time>, orphaned: bool, withheld: bool, now: Time) {
    && |h| <= |log| && h == log[|log| - |h|..]
    && (forall i :: 0 <= i < |log| - |h| ==> now - log[i] > AUTO_RESTART_WINDOW_SEC)
    && Ascending(log, now)
    && |h| <= 6 && Spaced(log, 6)
    && (!orphaned ==> |h| <= 5 && Spaced(log, 5))
    && (withheld ==> |h| <= 5)
  }

  predicate Adopting(task: Task) {
    task.stage.Spawning? && task.stage.adopted
  }

  /** Room left in the history by the time a sleeping task or an adopting start will charge. */
  ghost predicate RoomOk(task: Task, h: seq<Time>, orphaned: bool, withheld: bool) {
    && (Adopting(task) ==> |h| <= 5)
    && (task.role == AutoRestart && !task.cancelled && task.stage.Backoff? ==>
          |h| <= 5 && ((!orphaned || withheld) ==> |h| <= 4))
  }

  ghost predicate HistoriesOk(attempts: map<Port, seq<Time>>, log: map<Port, seq<Time>>, orphaned: set<Port>,
                              withheld: map<Port, Withheld>, now: Time)
  {
    forall p {:trigger TimesOf(attempts, p)} {:trigger TimesOf(log, p)} ::
      HistoryOk(TimesOf(attempts, p), TimesOf(log, p), p in orphaned, p in withheld, now)
  }

  ghost predicate RoomsOk(attempts: map<Port, seq<Time>>, orphaned: set<Port>, withheld: map<Port, Withheld>,
                          tasks: map<TaskId, Task>) {
    forall t :: t in tasks ==>
          RoomOk(tasks[t], TimesOf(attempts, tasks[t].port), tasks[t].port in orphaned, tasks[t].port in withheld)
  }

  /** An adopting start and a sleeping task on one port: both may still charge. */
  ghost predicate CrowdsOk(attempts: map<Port, seq<Time>>, tasks: map<TaskId, Task>) {
    forall t, u ::
      (t in tasks && u in tasks && Adopting(tasks[t]) && tasks[u].port == tasks[t].port
       && tasks[u].role == AutoRestart && !tasks[u].cancelled && tasks[u].stage.Backoff?) ==>
        |TimesOf(attempts, tasks[u].port)| <= 4
  }

  ghost predicate AttemptsOk(attempts: map<Port, seq<Time>>, log: map<Port, seq<Time>>, orphaned: set<Port>,
                             withheld: map<Port, Withheld>, tasks: map<TaskId, Task>, now: Time)
  {
    && HistoriesOk(attempts, log, orphaned, withheld, now)
    && RoomsOk(attempts, orphaned, withheld, tasks)
    && CrowdsOk(attempts, tasks)
  }

  // ---- Length of an auto-restart run ----

  /** The last `n` charged attempts are no older than `began`. */
  ghost predicate Recent(h: seq<Time>, n: nat, began: Time) {
    |h| >= n && (n > 0 ==> h[|h| - n] >= began)
  }

  /** Iterations this loop has finished. */
  function Finished(task: Task): (r: int) {
    if task.stage.Backoff? then task.loop.starts else task.loop.starts - 1
  }

  ghost predicate RunOk(task: Task, h: seq<Time>, now: Time) {
    task.role == AutoRestart ==>
      && (task.loop.timely ==> task.loop.starts <= 5)
      && (!task.cancelled && !task.stage.Created? ==>
            && task.loop.began <= task.loop.top <= now
            && 0 <= Finished(task)
            && (task.loop.timely ==>
                  && Finished(task) <= 4
                  && task.loop.top - task.loop.began <= ITERATION_BOUND_SEC * Finished(task) as real
                  && (now - task.loop.top <= ITERATION_BOUND_SEC ==> Recent(h, task.loop.starts, task.loop.began))))
  }

  ghost predicate RunsOk(tasks: map<TaskId, Task>, attempts: map<Port, seq<Time>>, now: Time) {
    forall t :: t in tasks ==> RunOk(tasks[t], TimesOf(attempts, tasks[t].port), now)
  }

  ghost predicate Inv(s: Sys) {
    && EventsOk(s.audit.history, s.m.ring, s.m.lastSequence, s.now)
    && NodesOk(s.m.nodes, s.alive, s.nextPid)
    && TasksOk(s.m.nodes, s.alive, s.lock, s.tasks, s.nextTask)
    && RecordsOk(s.m.withheld, s.audit.history, s.audit.accounts, s.m.attempts, s.m.nodes.info)
    && OwnersOk(s.tasks, s.m.withheld)
    && AttemptsOk(s.m.attempts, s.audit.log, s.audit.orphaned, s.m.withheld, s.tasks, s.now)
    && RunsOk(s.tasks, s.m.attempts, s.now)
  }

  lemma InitialInv()
    ensures Inv(INITIAL)
  {
  }
}
