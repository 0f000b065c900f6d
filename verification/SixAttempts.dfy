/**
 A run in which six restart attempts are charged to one port within 30 s, with every delay as the
 code sets it and every spawn inside the readiness timeout.

 A start holds the lock on a crashed port while the crash's watcher has not run yet; the
 auto-restart task that watcher creates is armed and then cancelled by a second start,
 which adopts its record. Meanwhile the first start's process has died too, its watcher
 creates another task, which overwrites the adopted record, fails four times before it
 gets to the lock, and takes its own record with it. After 20 s the second start
 succeeds, finds the record it adopted gone, and charges a fifth attempt; its process dies.
 The sleeping task, which counted four when it went to sleep, wakes and charges a sixth.
 */
module SixAttempts {
  import opened Options
  import opened ManagerState
  import opened ManagerSteps

  const P: Port := 4723
  const DEVICE: Identity := Identity("device", "android")

  lemma {:induction false} RunAppend(s: Sys, actions: seq<Action>, r: Sys, a: Action)
    requires IsRun(s, actions, r) && Enabled(r, a)
    ensures IsRun(s, actions + [a], Apply(r, a))
    decreases |actions|
  {
    hide Enabled; hide Apply;
    if actions == [] {
      assert (actions + [a])[1..] == [];
    } else {
      RunAppend(Apply(s, actions[0]), actions[1..], r, a);
      assert (actions + [a])[1..] == actions[1..] + [a];
    }
  }

  lemma Extend(s: Sys, a: Action)
    requires Reachable(s) && Enabled(s, a)
    ensures Reachable(Apply(s, a))
  {
    hide Enabled; hide Apply;
    var actions :| IsRun(INITIAL, actions, s);
    RunAppend(INITIAL, actions, s, a);
  }

  /** The parts of a state this run needs to follow. */
  ghost predicate Scene(s: Sys, tasks: map<TaskId, Task>, lock: Option<TaskId>, restarts: map<Port, TaskId>, pid: Pid,
                        alive: set<Pid>) {
    && Reachable(s)
    && s.tasks == tasks && s.lock == lock && s.m.nodes.restartTasks == restarts
    && s.m.nodes.procs == map[P := pid] && s.m.nodes.info == map[P := Info(pid, DEVICE)] && P in s.m.nodes.specs
    && s.alive == alive && s.nextPid == pid + 1
    && P !in s.m.stopPending && P !in s.m.intentionalStop
    && P in s.m.nodes.watchTasks
  }

  function Watch(pid: Pid): (r: Task) {
    Task(Watcher, P, Watching(pid), false, NO_LOOP)
  }

  function Launching(adopted: bool): (r: Task) {
    Task(StartCall, P, Spawning(DEVICE, false, adopted), false, NO_LOOP)
  }

  lemma {:induction false} InitialReachable()
    ensures Reachable(INITIAL)
  {
    assert IsRun(INITIAL, [], INITIAL);
  }

  /** `start()` from its call to the spawn, with nothing in between. */
  lemma Enters(s: Sys) returns (r: Sys)
    requires Reachable(s) && s.lock.None? && !Running(s.m.nodes, s.alive, P)
             && !ServedElsewhere(s.m.nodes, s.alive, DEVICE, P)
    requires s.nextTask !in s.tasks && (P in s.m.nodes.restartTasks ==> s.m.nodes.restartTasks[P] < s.nextTask)
    requires P in s.m.withheld ==> s.now - s.m.withheld[P].armedAt <= WITHHOLD_OWNERSHIP_MAX_SEC
    ensures Reachable(r)
    ensures r ==
            Committed(TakeOver(Spawn(s, Task(StartCall, P, Waiting(DEVICE, false), false, NO_LOOP)), P, s.nextTask),
                      s.nextTask,
                           Task(StartCall, P, Waiting(DEVICE, false), false, NO_LOOP))
  {
    hide Reachable;
    var t := s.nextTask;
    Extend(s, StartCalled(P));
    var called := Apply(s, StartCalled(P));
    Extend(called, HooksDone(t, DEVICE, false));
    var waiting := Apply(called, HooksDone(t, DEVICE, false));
    assert waiting == Spawn(s, Task(StartCall, P, Waiting(DEVICE, false), false, NO_LOOP));
    Extend(waiting, LockTaken(t, false));
    r := Apply(waiting, LockTaken(t, false));
  }

  /** The port is up: pid 0, watched by task 1. */
  lemma FirstStart() returns (s: Sys)
    ensures Scene(s, map[1 := Watch(0)], None, map[], 0, {0}) && s.nextTask == 2 && s.m.withheld == map[]
            && s.m.lastSequence == 0
    ensures s.m.attempts == map[] && s.audit.log == map[] && s.now == 0.0 && s.m.backoff == map[]
            && s.m.nodes.watchTasks == map[P := 1]
  {
    InitialReachable();
    var entered := Enters(INITIAL);
    hide Reachable;
    assert entered.tasks == map[0 := Launching(false)] && entered.lock == Some(0) && entered.nextTask == 1;
    Extend(entered, SpawnSucceeds(0));
    s := Apply(entered, SpawnSucceeds(0));
    assert s.tasks == map[1 := Watch(0)];
  }

  /** The process dies; a second start is past its adoption check before the watcher runs. */
  lemma SecondStart() returns (s: Sys)
    ensures Scene(s, map[1 := Watch(0), 2 := Launching(false)], Some(2), map[], 0, {}) && s.nextTask == 3
            && s.m.withheld == map[] && s.m.lastSequence == 0
    ensures s.m.attempts == map[] && s.audit.log == map[] && s.now == 0.0 && s.m.backoff == map[]
            && s.m.nodes.watchTasks == map[P := 1]
  {
    var up := FirstStart();
    hide Reachable;
    Extend(up, ProcessExits(0));
    var down := Apply(up, ProcessExits(0));
    assert down.alive == {};
    s := Enters(down);
    assert s.tasks == map[1 := Watch(0), 2 := Launching(false)];
  }

  function Newborn(): (r: Task) {
    Task(AutoRestart, P, Created, false, NO_LOOP)
  }

  function Asleep(sequence: nat, cancelled: bool): (r: Task) {
    Sleeping(P, FirstIteration(0.0), sequence, 1, 1.0).(cancelled := cancelled)
  }

  /** A watcher creates an auto-restart task. */
  lemma Fires(s: Sys, w: TaskId, pid: Pid) returns (r: Sys)
    requires Reachable(s) && w in s.tasks && s.tasks[w] == Watch(pid) && pid !in s.alive
    requires s.m.nodes.procs == map[P := pid] && P !in s.m.intentionalStop && P !in s.m.nodes.restartTasks
    ensures Reachable(r)
    ensures r == s.(m := s.m.(nodes := s.m.nodes.(restartTasks := s.m.nodes.restartTasks[P := s.nextTask])),
                    tasks := (s.tasks - {w})[s.nextTask := Newborn()], nextTask := s.nextTask + 1,
                    lock := if s.lock == Some(w) then None else s.lock)
  {
    hide Reachable;
    Extend(s, WatcherFires(w));
    r := Apply(s, WatcherFires(w));
  }

  /** What the manager looks like after a first crash was armed. */
  ghost predicate Armed(s: Sys, r: Sys, t: TaskId) {
    && r.tasks == s.tasks[t := Sleeping(P, FirstIteration(s.now), s.m.lastSequence + 1, 1, s.now + 1.0)]
    && r.m.withheld ==
       s.m.withheld[P := Withheld(s.m.lastSequence + 1, s.now + FIRST_RESTART_WITHHOLD_MAX_SEC, s.now, false)]
    && TimesOf(r.m.attempts, P) == [] && r.m.backoff == s.m.backoff && r.m.nodes == s.m.nodes
       && r.m.lastSequence == s.m.lastSequence + 1
    && r.m.stopPending == s.m.stopPending && r.m.intentionalStop == s.m.intentionalStop
    && r.audit.log == s.audit.log && r.lock == s.lock && r.alive == s.alive && r.now == s.now
    && r.nextTask == s.nextTask && r.nextPid == s.nextPid
  }

  lemma Begins(s: Sys, t: TaskId) returns (r: Sys)
    requires Reachable(s) && t in s.tasks && s.tasks[t] == Newborn() && P !in s.m.stopPending
             && P !in s.m.intentionalStop
    requires TimesOf(s.m.attempts, P) == [] && s.m.backoff == map[]
    ensures Reachable(r) && Armed(s, r, t)
  {
    hide Reachable; hide Newest;
    Extend(s, RestartBegins(t));
    r := Apply(s, RestartBegins(t));
  }

  /** The watcher runs: its task arms the first withhold while the second start is spawning. */
  lemma ArmedBehindAStart() returns (s: Sys)
    ensures Scene(s, map[2 := Launching(false), 3 := Asleep(1, false)], Some(2), map[P := 3], 0, {}) && s.nextTask == 4
    ensures s.m.withheld == map[P := Withheld(1, FIRST_RESTART_WITHHOLD_MAX_SEC, 0.0, false)]
    ensures TimesOf(s.m.attempts, P) == [] && s.audit.log == map[] && s.now == 0.0 && s.m.backoff == map[]
            && s.m.lastSequence == 1
    ensures s.m.nodes.watchTasks == map[P := 1]
  {
    hide Reachable;
    var started := SecondStart();
    var fired := Fires(started, 1, 0);
    assert fired.tasks == map[2 := Launching(false), 3 := Newborn()];
    s := Begins(fired, 3);
    assert s.tasks == map[2 := Launching(false), 3 := Asleep(1, false)];
  }

  /** The second start succeeds without settling anything, and its process dies as well. */
  lemma SecondProcessDies() returns (s: Sys)
    ensures Scene(s, map[3 := Asleep(1, false), 4 := Watch(1)], None, map[P := 3], 1, {}) && s.nextTask == 5
    ensures s.m.withheld == map[P := Withheld(1, FIRST_RESTART_WITHHOLD_MAX_SEC, 0.0, false)]
    ensures TimesOf(s.m.attempts, P) == [] && s.audit.log == map[] && s.now == 0.0 && s.m.backoff == map[]
            && s.m.lastSequence == 1
    ensures s.m.nodes.watchTasks == map[P := 4]
  {
    hide Reachable;
    var armed := ArmedBehindAStart();
    Extend(armed, SpawnSucceeds(2));
    var up := Apply(armed, SpawnSucceeds(2));
    assert up.tasks == map[3 := Asleep(1, false), 4 := Watch(1)];
    Extend(up, ProcessExits(1));
    s := Apply(up, ProcessExits(1));
  }

  /** A third start cancels the sleeping task and adopts its record. */
  lemma ThirdStartAdopts() returns (s: Sys)
    ensures Scene(s, map[3 := Asleep(1, true), 4 := Watch(1), 5 := Launching(true)], Some(5), map[], 1, {})
            && s.nextTask == 6
    ensures s.m.withheld == map[P := Withheld(1, FIRST_RESTART_WITHHOLD_MAX_SEC, 0.0, false)]
    ensures TimesOf(s.m.attempts, P) == [] && s.audit.log == map[] && s.now == 0.0 && s.m.backoff == map[]
            && s.m.lastSequence == 1
    ensures s.m.nodes.watchTasks == map[P := 4]
  {
    hide Reachable;
    var down := SecondProcessDies();
    s := Enters(down);
    assert s.tasks == map[3 := Asleep(1, true), 4 := Watch(1), 5 := Launching(true)];
  }

  /** The second watcher runs; its task arms a record of its own over the adopted one. */
  lemma RecordOverwritten() returns (s: Sys)
    ensures Scene(s, map[3 := Asleep(1, true), 5 := Launching(true), 6 := Asleep(2, false)], Some(5), map[P := 6], 1,
                  {})
    ensures s.m.withheld == map[P := Withheld(2, FIRST_RESTART_WITHHOLD_MAX_SEC, 0.0, false)] && s.nextTask == 7
    ensures TimesOf(s.m.attempts, P) == [] && s.audit.log == map[] && s.now == 0.0 && s.m.backoff == map[]
    ensures s.m.nodes.watchTasks == map[P := 4]
  {
    hide Reachable;
    var adopted := ThirdStartAdopts();
    var fired := Fires(adopted, 4, 1);
    assert fired.tasks == map[3 := Asleep(1, true), 5 := Launching(true), 6 := Newborn()];
    s := Begins(fired, 6);
    assert s.tasks == map[3 := Asleep(1, true), 5 := Launching(true), 6 := Asleep(2, false)];
  }

  // ---- Four attempts that fail before they reach the lock ----

  /** When the loop comes round for the n-th time: after delays of 1, 2, 4, 8 and 16 s. */
  function Mark(n: nat): (t: Time) {
    if n == 0 then 0.0 else if n == 1 then 1.0 else if n == 2 then 3.0 else if n == 3 then 7.0 else if n == 4 then 15.0
       else 31.0
  }

  /** The attempts charged by then. */
  function Marks(n: nat): (h: seq<Time>)
    ensures |h| == n
  {
    if n == 0 then [] else Marks(n - 1) + [Mark(n)]
  }

  /** Task 6 has been round n times and is at `stage`; task 5 is still spawning. */
  ghost predicate Round(s: Sys, n: nat, stage: Stage) {
    && Reachable(s)
    && 5 in s.tasks && s.tasks[5] == Launching(true)
    && 6 in s.tasks && s.tasks[6].role == AutoRestart && s.tasks[6].port == P && s.tasks[6].stage == stage
       && !s.tasks[6].cancelled
    && P in s.m.nodes.specs && P in s.m.nodes.info && !Running(s.m.nodes, s.alive, P) && P !in s.m.stopPending
       && P !in s.m.intentionalStop
    && (P in s.m.withheld ==> s.tasks[6].loop.isFirst)
    && P in s.m.nodes.watchTasks && s.m.nodes.watchTasks[P] != 6 && s.nextTask > 6
  }

  /** Asleep until the next mark, with the attempts of the first n marks charged. */
  ghost predicate Failing(s: Sys, n: nat) {
    && Round(s, n, Backoff)
    && s.now == Mark(n) && s.tasks[6].loop.wakeAt == Mark(n + 1) && BackoffStep(s.m, P) == n
    && TimesOf(s.m.attempts, P) == TimesOf(s.audit.log, P) == Marks(n)
    && (n >= 1 ==> P !in s.m.withheld)
  }

  /** Past the charge of the mark, inside a hook of `start()`. */
  ghost predicate Charged(s: Sys, n: nat) {
    && Round(s, n, Resolving)
    && s.now == Mark(n) && BackoffStep(s.m, P) + 1 == n
    && TimesOf(s.m.attempts, P) == TimesOf(s.audit.log, P) == Marks(n)
  }

  /** No attempt in the history has left the window. */
  ghost predicate AllRecent(h: seq<Time>, now: Time) {
    forall i :: 0 <= i < |h| ==> now - h[i] <= AUTO_RESTART_WINDOW_SEC
  }

  lemma NothingTrimmed(h: seq<Time>, now: Time)
    requires AllRecent(h, now)
    ensures Trim(h, now) == h
  {
  }

  lemma ChargesOne(m: Manager, now: Time)
    requires AllRecent(TimesOf(m.attempts, P), now)
    ensures ChargeAttempt(m, P, now) == m.(attempts := m.attempts[P := TimesOf(m.attempts, P) + [now]])
  {
    NothingTrimmed(TimesOf(m.attempts, P), now);
  }

  lemma {:induction false} MarksAreRecent(n: nat)
    ensures forall i :: 0 <= i < n ==> 0.0 <= Marks(n)[i] <= 31.0
  {
    if n > 0 { MarksAreRecent(n - 1); }
  }

  lemma MarksStay(n: nat, now: Time)
    requires now <= 31.0
    ensures AllRecent(Marks(n), now)
  {
    MarksAreRecent(n);
  }

  /** The books after a wake-up that goes on to `start()`. */
  lemma ChargeBooks(s: Sys, loop: Loop)
    requires AllRecent(TimesOf(s.m.attempts, P), s.now)
    ensures var r := Charge(s, P, loop);
            && r.tasks == s.tasks && r.m.nodes == s.m.nodes && r.alive == s.alive && r.now == s.now && r.lock == s.lock
            && r.nextTask == s.nextTask && r.nextPid == s.nextPid && r.m.backoff == s.m.backoff
            && r.m.stopPending == s.m.stopPending && r.m.intentionalStop == s.m.intentionalStop
            && r.m.withheld.Keys == s.m.withheld.Keys && r.audit.orphaned == s.audit.orphaned
            && TimesOf(r.m.attempts, P) == TimesOf(s.m.attempts, P) + [s.now]
            && TimesOf(r.audit.log, P) == TimesOf(s.audit.log, P) + [s.now]
  {
    ChargesOne(s.m, s.now);
    hide ChargeAttempt; hide AllRecent;
  }

  lemma Wakes(s: Sys, n: nat) returns (r: Sys)
    requires Failing(s, n) && n <= 3
    ensures Charged(r, n + 1)
  {
    hide Reachable; hide Running; hide Marks; hide AllRecent; hide Charge;
    MarksStay(n, Mark(n + 1));
    MarksGrow(n);
    Extend(s, Tick(Mark(n + 1) - Mark(n)));
    var later := Apply(s, Tick(Mark(n + 1) - Mark(n)));
    ChargeBooks(Park(later, 6), later.tasks[6].loop);
    Extend(later, BackoffEnds(6));
    r := Apply(later, BackoffEnds(6));
  }

  lemma MarksGrow(n: nat)
    ensures Marks(n + 1) == Marks(n) + [Mark(n + 1)]
  {
  }

  lemma HookFails(s: Sys, n: nat) returns (r: Sys)
    requires Charged(s, n) && 1 <= n <= 4
    ensures Failing(r, n)
  {
    hide Reachable; hide Running; hide LoopHead; hide NextDelay; hide Marks; hide AllRecent;
    MarksStay(n, Mark(n));
    Extend(s, HooksFail(6, Failed));
    r := Apply(s, HooksFail(6, Failed));
    var task := s.tasks[6];
    var released := ReleaseIfFirst(Park(s, 6).(m := AdvanceBackoff(s.m, P)), P, task.loop);
    HeadAgain(released, NextIteration(task.loop, s.now), n);
    assert r == LoopHead(released, 6, P, NextIteration(task.loop, s.now));
  }

  /** The loop comes round with one to four attempts on the books. */
  lemma HeadAgain(s: Sys, loop: Loop, n: nat)
    requires P !in s.m.stopPending && P !in s.m.intentionalStop && |TimesOf(s.m.attempts, P)| == n && 1 <= n <= 4
    requires AllRecent(TimesOf(s.m.attempts, P), s.now) && BackoffStep(s.m, P) == n
    ensures var r := LoopHead(s, 6, P, loop);
            && r.audit.log == s.audit.log && TimesOf(r.m.attempts, P) == TimesOf(s.m.attempts, P)
            && r.m.withheld == s.m.withheld && r.m.nodes == s.m.nodes && r.now == s.now && r.alive == s.alive
            && r.m.stopPending == s.m.stopPending && r.m.intentionalStop == s.m.intentionalStop
               && r.m.backoff == s.m.backoff
            && r.nextTask == s.nextTask && r.nextPid == s.nextPid
            && r.tasks == s.tasks[6 := Sleeping(P, loop, s.m.lastSequence + 1, n + 1, s.now + (Mark(n + 1) - Mark(n)))]
  {
    NothingTrimmed(TimesOf(s.m.attempts, P), s.now);
    hide Trim; hide Newest; hide AllRecent;
  }

  lemma FirstRound() returns (s: Sys)
    ensures Failing(s, 0)
  {
    hide Reachable;
    s := RecordOverwritten();
  }

  lemma FourFailures() returns (s: Sys)
    ensures Failing(s, 4)
  {
    hide Failing; hide Charged;
    var s0 := FirstRound();
    var w1 := Wakes(s0, 0);
    var s1 := HookFails(w1, 1);
    var w2 := Wakes(s1, 1);
    var s2 := HookFails(w2, 2);
    var w3 := Wakes(s2, 2);
    var s3 := HookFails(w3, 3);
    var w4 := Wakes(s3, 3);
    s := HookFails(w4, 4);
  }

  /** What registering the new process leaves alone. */
  lemma RegisterSpares(s: Sys)
    requires 6 in s.tasks && s.nextTask > 6 && P in s.m.nodes.watchTasks && s.m.nodes.watchTasks[P] != 6
    ensures var r := Register(s, P, DEVICE, false, 5);
            && 6 in r.tasks && r.tasks[6] == s.tasks[6] && r.m.nodes.procs == s.m.nodes.procs[P := s.nextPid]
            && r.m.nodes.specs == s.m.nodes.specs && r.alive == s.alive + {s.nextPid} && r.now == s.now
            && r.m.attempts == s.m.attempts && r.audit == s.audit && r.m.withheld == s.m.withheld
            && r.m.stopPending == s.m.stopPending && r.m.intentionalStop == s.m.intentionalStop
  {
  }

  /** The adopting start comes up without a record to settle. */
  lemma ComesUp(s: Sys)
    requires At(s, 5) && s.tasks[5] == Launching(true) && P !in s.m.withheld
    requires 6 in s.tasks && s.nextTask > 6 && P in s.m.nodes.watchTasks && s.m.nodes.watchTasks[P] != 6
    requires TimesOf(s.m.attempts, P) == TimesOf(s.audit.log, P) && AllRecent(TimesOf(s.m.attempts, P), s.now)
    ensures var r := Apply(s, SpawnSucceeds(5));
            && 6 in r.tasks && r.tasks[6] == s.tasks[6] && r.m.nodes.procs == s.m.nodes.procs[P := s.nextPid]
            && r.m.nodes.specs == s.m.nodes.specs && r.alive == s.alive + {s.nextPid} && r.now == s.now
            && r.m.stopPending == s.m.stopPending && r.m.intentionalStop == s.m.intentionalStop
            && TimesOf(r.m.attempts, P) == TimesOf(r.audit.log, P) == TimesOf(s.audit.log, P) + [s.now]
               && P in r.audit.orphaned
  {
    RegisterSpares(Leave(s, 5));
    SettlesNothing(Register(Leave(s, 5), P, DEVICE, false, 5), s.nextPid);
    hide Register; hide Settle; hide AllRecent; hide TimesOf;
  }

  /** Settling without a record charges the port and touches nothing else the run needs. */
  lemma SettlesNothing(s: Sys, pid: Pid)
    requires P !in s.m.withheld && AllRecent(TimesOf(s.m.attempts, P), s.now)
    ensures var r := Settle(s, P, pid);
            && r.tasks == s.tasks && r.m.nodes == s.m.nodes && r.alive == s.alive && r.now == s.now
            && r.m.stopPending == s.m.stopPending && r.m.intentionalStop == s.m.intentionalStop
            && TimesOf(r.m.attempts, P) == TimesOf(s.m.attempts, P) + [s.now]
            && TimesOf(r.audit.log, P) == TimesOf(s.audit.log, P) + [s.now] && P in r.audit.orphaned
  {
    ChargesOne(Record(s, RestartSucceeded, P, Some(pid), 1, None, false).m, s.now);
    hide ChargeAttempt; hide Newest; hide AllRecent;
  }

  /** The adopting start succeeds at 20 s, and its process dies at once. */
  lemma AdoptedRecordGone(s: Sys) returns (about: Sys, r: Sys)
    requires Failing(s, 4)
    ensures Reachable(about) && about.now == 20.0 && Enabled(about, SpawnSucceeds(5))
            && about.tasks[5] == Launching(true)
    ensures P !in about.m.withheld
    ensures Reachable(r) && r.now == 20.0 && 6 in r.tasks && r.tasks[6] == s.tasks[6] && P in r.m.nodes.specs
    ensures !Running(r.m.nodes, r.alive, P) && P !in r.m.stopPending && P !in r.m.intentionalStop
    ensures TimesOf(r.m.attempts, P) == TimesOf(r.audit.log, P) == Marks(4) + [20.0] && P in r.audit.orphaned
  {
    hide Reachable; hide AllRecent; hide Marks; hide Respawned;
    MarksStay(4, 20.0);
    Extend(s, Tick(5.0));
    about := Apply(s, Tick(5.0));
    Extend(about, SpawnSucceeds(5));
    ComesUp(about);
    var up := Apply(about, SpawnSucceeds(5));
    Extend(up, ProcessExits(about.nextPid));
    r := Apply(up, ProcessExits(about.nextPid));
  }

  /**
   The bound of five attempts in 300 s is not met: a reachable state with six inside 30 s, 31 s
   into the run. The adopting start, spawning since the run began, comes up at 20 s.
   */
  lemma SixAttemptsInOneWindow() returns (about: Sys, s: Sys)
    ensures Reachable(about) && about.now == 20.0 && Enabled(about, SpawnSucceeds(5))
            && about.tasks[5] == Launching(true)
    ensures P !in about.m.withheld
    ensures Reachable(s) && s.now == 31.0 && P in s.audit.orphaned
    ensures TimesOf(s.audit.log, P) == [1.0, 3.0, 7.0, 15.0, 20.0, 31.0]
  {
    hide Reachable; hide Running; hide Charge;
    var asleep := FourFailures();
    var down;
    about, down := AdoptedRecordGone(asleep);
    assert Marks(4) ==
           [1.0, 3.0, 7.0, 15.0] by { assert Marks(3) == [1.0, 3.0, 7.0] by { assert Marks(2) == [1.0, 3.0]; } }
    Extend(down, Tick(11.0));
    var later := Apply(down, Tick(11.0));
    ChargeBooks(Park(later, 6), later.tasks[6].loop);
    Extend(later, BackoffEnds(6));
    s := Apply(later, BackoffEnds(6));
  }
}
