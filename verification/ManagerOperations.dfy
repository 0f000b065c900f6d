/** The bookkeeping operations keep the invariant, one operation at a time. */
module ManagerOperations {
  import opened Options
  import opened ManagerState
  import opened ManagerSteps
  import opened ManagerInvariant

  // ---- Tasks only disappear or get cancelled ----

  ghost predicate Shrunk(before: map<TaskId, Task>, after: map<TaskId, Task>) {
    forall t :: t in after ==> t in before && (after[t] == before[t] || after[t] == before[t].(cancelled := true))
  }

  lemma ShrunkKeeps(before: map<TaskId, Task>, after: map<TaskId, Task>, s: Sys)
    requires Shrunk(before, after)
    requires OwnersOk(before, s.m.withheld)
    requires AttemptsOk(s.m.attempts, s.audit.log, s.audit.orphaned, s.m.withheld, before, s.now)
    requires RunsOk(before, s.m.attempts, s.now)
    ensures OwnersOk(after, s.m.withheld)
    ensures AttemptsOk(s.m.attempts, s.audit.log, s.audit.orphaned, s.m.withheld, after, s.now)
    ensures RunsOk(after, s.m.attempts, s.now)
  {
    hide HistoriesOk;
  }

  lemma LeaveKeepsTasks(n: Nodes, alive: set<Pid>, lock: Option<TaskId>, tasks: map<TaskId, Task>, nextTask: TaskId,
                        t: TaskId)
    requires TasksOk(n, alive, lock, tasks, nextTask)
    ensures TasksOk(n, alive, if lock == Some(t) then None else lock, tasks - {t}, nextTask)
  {
    hide Running; hide ServedElsewhere;
  }

  lemma LeaveKeeps(s: Sys, t: TaskId)
    requires Inv(s)
    ensures Inv(Leave(s, t))
  {
    hide EventsOk; hide NodesOk; hide TasksOk; hide RecordsOk; hide OwnersOk; hide AttemptsOk; hide RunsOk;
    LeaveKeepsTasks(s.m.nodes, s.alive, s.lock, s.tasks, s.nextTask, t);
    ShrunkKeeps(s.tasks, s.tasks - {t}, s);
  }

  lemma ParkKeepsTasks(n: Nodes, alive: set<Pid>, lock: Option<TaskId>, tasks: map<TaskId, Task>, nextTask: TaskId,
                       t: TaskId)
    requires TasksOk(n, alive, lock, tasks, nextTask) && t in tasks && tasks[t].role == AutoRestart
    ensures TasksOk(n, alive, if lock == Some(t) then None else lock, tasks[t := tasks[t].(stage := Created)], nextTask)
  {
    hide Running; hide ServedElsewhere;
  }

  lemma ParkKeepsOwnership(s: Sys, t: TaskId)
    requires OwnersOk(s.tasks, s.m.withheld) && t in s.tasks
    requires AttemptsOk(s.m.attempts, s.audit.log, s.audit.orphaned, s.m.withheld, s.tasks, s.now)
    requires RunsOk(s.tasks, s.m.attempts, s.now)
    ensures OwnersOk(Park(s, t).tasks, s.m.withheld)
    ensures AttemptsOk(s.m.attempts, s.audit.log, s.audit.orphaned, s.m.withheld, Park(s, t).tasks, s.now)
    ensures RunsOk(Park(s, t).tasks, s.m.attempts, s.now)
  {
    hide HistoriesOk;
  }

  lemma ParkKeeps(s: Sys, t: TaskId)
    requires Inv(s) && t in s.tasks && s.tasks[t].role == AutoRestart
    ensures Inv(Park(s, t))
  {
    hide EventsOk; hide NodesOk; hide TasksOk; hide RecordsOk; hide OwnersOk; hide AttemptsOk; hide RunsOk;
    ParkKeepsTasks(s.m.nodes, s.alive, s.lock, s.tasks, s.nextTask, t);
    ParkKeepsOwnership(s, t);
  }

  // ---- Lifting a withhold ----

  lemma ReleaseKeepsGroups(s: Sys, p: Port)
    requires RecordsOk(s.m.withheld, s.audit.history, s.audit.accounts, s.m.attempts, s.m.nodes.info)
    requires OwnersOk(s.tasks, s.m.withheld)
    requires RoomsOk(s.m.attempts, s.audit.orphaned, s.m.withheld, s.tasks)
    ensures RecordsOk(s.m.withheld - {p}, s.audit.history, s.audit.accounts, s.m.attempts, s.m.nodes.info)
    ensures OwnersOk(s.tasks, s.m.withheld - {p})
    ensures RoomsOk(s.m.attempts, s.audit.orphaned, s.m.withheld - {p}, s.tasks)
  {
  }

  lemma WithheldHistory(h: seq<Time>, log: seq<Time>, orphaned: bool, before: bool, after: bool, now: Time)
    requires HistoryOk(h, log, orphaned, before, now) && (after ==> |h| <= 5)
    ensures HistoryOk(h, log, orphaned, after, now)
  {
    hide Spaced; hide Ascending;
  }

  lemma ReleaseKeepsHistories(s: Sys, p: Port)
    requires HistoriesOk(s.m.attempts, s.audit.log, s.audit.orphaned, s.m.withheld, s.now)
    ensures HistoriesOk(s.m.attempts, s.audit.log, s.audit.orphaned, s.m.withheld - {p}, s.now)
  {
    hide HistoryOk; hide TimesOf;
    assert HistoryOk(TimesOf(s.m.attempts, p), TimesOf(s.audit.log, p), p in s.audit.orphaned, p in s.m.withheld,
                     s.now);
    WithheldHistory(TimesOf(s.m.attempts, p), TimesOf(s.audit.log, p), p in s.audit.orphaned, p in s.m.withheld, false,
                    s.now);
    HistoriesAt(s, s.(m := ReleaseWithhold(s.m, p)), p);
  }

  lemma ReleaseKeeps(s: Sys, p: Port)
    requires Inv(s)
    ensures Inv(s.(m := ReleaseWithhold(s.m, p)))
  {
    hide EventsOk; hide NodesOk; hide TasksOk; hide RecordsOk; hide OwnersOk; hide HistoriesOk; hide RoomsOk;
    hide CrowdsOk; hide RunsOk;
    ReleaseKeepsGroups(s, p);
    ReleaseKeepsHistories(s, p);
  }

  lemma ReleaseIfFirstKeeps(s: Sys, p: Port, loop: Loop)
    requires Inv(s)
    ensures Inv(ReleaseIfFirst(s, p, loop))
  {
    hide Inv;
    ReleaseKeeps(s, p);
  }

  // ---- Recording an event ----

  lemma NewestAppend(h: seq<Event>, e: Event)
    ensures Newest(Newest(h) + [e]) == Newest(h + [e])
  {
    if |h| > MAX_RESTART_EVENTS {
      assert Newest(Newest(h) + [e]) == h[|h| - MAX_RESTART_EVENTS + 1..] + [e];
    }
  }

  lemma AppendKeepsEvents(h: seq<Event>, ring: seq<Event>, n: nat, e: Event, now: Time)
    requires EventsOk(h, ring, n, now) && e.sequence == n + 1 && e.at == now
    ensures EventsOk(h + [e], Newest(ring + [e]), n + 1, now)
  {
    NewestAppend(h, e);
    assert (h + [e])[..|h|] == h;
  }

  lemma AppendKeepsRecords(withheld: map<Port, Withheld>, h: seq<Event>, e: Event, accounts: map<nat, Account>,
                           attempts: map<Port, seq<Time>>, info: map<Port, Info>)
    requires RecordsOk(withheld, h, accounts, attempts, info)
    ensures RecordsOk(withheld, h + [e], accounts, attempts, info)
  {
    forall p | p in withheld ensures RecordOk(p, withheld[p], h + [e], accounts, attempts, info) {
      assert RecordOk(p, withheld[p], h, accounts, attempts, info);
    }
  }

  lemma RecordKeeps(s: Sys, kind: EventKind, p: Port, pid: Option<Pid>, attempt: nat, delay: Option<nat>,
                    willRetry: bool)
    requires Inv(s)
    ensures Inv(Record(s, kind, p, pid, attempt, delay, willRetry))
  {
    hide EventsOk; hide NodesOk; hide TasksOk; hide RecordsOk; hide OwnersOk; hide AttemptsOk; hide RunsOk; hide Newest;
    var e := NextEvent(s.m, kind, p, pid, attempt, delay, willRetry, s.now);
    AppendKeepsEvents(s.audit.history, s.m.ring, s.m.lastSequence, e, s.now);
    AppendKeepsRecords(s.m.withheld, s.audit.history, e, s.audit.accounts, s.m.attempts, s.m.nodes.info);
  }

  // ---- Charged attempts ----

  lemma TrimmedHistory(h: seq<Time>, log: seq<Time>, orphaned: bool, withheld: bool, now: Time)
    requires HistoryOk(h, log, orphaned, withheld, now)
    ensures HistoryOk(Trim(h, now), log, orphaned, withheld, now)
  {
    hide Spaced; hide Ascending;
    var r := Trim(h, now);
    assert r == log[|log| - |r|..];
    forall i | 0 <= i < |log| - |r| ensures now - log[i] > AUTO_RESTART_WINDOW_SEC {
      if i >= |log| - |h| { assert log[i] == h[i - (|log| - |h|)]; }
    }
  }

  lemma AppendedLog(h: seq<Time>, log: seq<Time>, now: Time, n: nat)
    requires |h| < n && |h| <= |log| && Ascending(log, now) && Spaced(log, n)
    requires forall i :: 0 <= i < |log| - |h| ==> now - log[i] > AUTO_RESTART_WINDOW_SEC
    ensures Ascending(log + [now], now) && Spaced(log + [now], n)
  {
  }

  lemma ChargedHistory(h: seq<Time>, log: seq<Time>, orphaned: bool, withheld: bool, now: Time)
    requires HistoryOk(h, log, orphaned, withheld, now)
    requires |h| <= 5 && (!orphaned || withheld ==> |h| <= 4)
    ensures HistoryOk(Trim(h, now) + [now], log + [now], orphaned, withheld, now)
  {
    hide Spaced; hide Ascending; hide Trim;
    TrimmedHistory(h, log, orphaned, withheld, now);
    var r := Trim(h, now);
    AppendedLog(r, log, now, 6);
    if !orphaned { AppendedLog(r, log, now, 5); }
    assert r + [now] == (log + [now])[|log| - |r|..];
  }

  lemma TrimKeepsRecent(h: seq<Time>, n: nat, began: Time, now: Time)
    requires Ascending(h, now) && Recent(h, n, began) && now - began <= AUTO_RESTART_WINDOW_SEC
    ensures Recent(Trim(h, now), n, began)
  {
    hide Trim;
    var r := Trim(h, now);
    if n > 0 {
      var k := |h| - n;
      assert forall i :: k <= i < |h| ==> now - h[i] <= AUTO_RESTART_WINDOW_SEC;
      assert k >= |h| - |r|;
      assert r[|r| - n] == h[k];
    }
  }

  lemma AppendKeepsRecent(h: seq<Time>, n: nat, began: Time, now: Time)
    requires Ascending(h, now) && Recent(h, n, began) && began <= now
    ensures Recent(h + [now], n, began) && Recent(h + [now], n + 1, began)
  {
  }

  lemma HistoryAscends(h: seq<Time>, log: seq<Time>, orphaned: bool, withheld: bool, now: Time)
    requires HistoryOk(h, log, orphaned, withheld, now)
    ensures Ascending(h, now)
  {
    hide Spaced;
  }

  lemma TrimAscends(h: seq<Time>, now: Time)
    requires Ascending(h, now)
    ensures Ascending(Trim(h, now), now)
  {
  }

  /** While an iteration is within its bound, nothing its loop charged can be trimmed. */
  lemma TrimKeepsRun(task: Task, h: seq<Time>, now: Time)
    requires RunOk(task, h, now) && Ascending(h, now)
    ensures RunOk(task, Trim(h, now), now) && RunOk(task, Trim(h, now) + [now], now)
  {
    hide Ascending; hide Recent; hide Trim;
    if task.role == AutoRestart && !task.cancelled && !task.stage.Created? && task.loop.timely
       && now - task.loop.top <= ITERATION_BOUND_SEC {
      TrimKeepsRecent(h, task.loop.starts, task.loop.began, now);
      TrimAscends(h, now);
      AppendKeepsRecent(Trim(h, now), task.loop.starts, task.loop.began, now);
    }
  }

  lemma TrimKeepsRuns(s: Sys, p: Port)
    requires RunsOk(s.tasks, s.m.attempts, s.now)
    requires AttemptsOk(s.m.attempts, s.audit.log, s.audit.orphaned, s.m.withheld, s.tasks, s.now)
    ensures RunsOk(s.tasks, TrimAttempts(s.m, p, s.now).attempts, s.now)
    ensures RunsOk(s.tasks, ChargeAttempt(s.m, p, s.now).attempts, s.now)
  {
    hide RunOk; hide RoomOk;
    var h := TimesOf(s.m.attempts, p);
    HistoryAscends(h, TimesOf(s.audit.log, p), p in s.audit.orphaned, p in s.m.withheld, s.now);
    forall t | t in s.tasks
      ensures RunOk(s.tasks[t], TimesOf(TrimAttempts(s.m, p, s.now).attempts, s.tasks[t].port), s.now)
      ensures RunOk(s.tasks[t], TimesOf(ChargeAttempt(s.m, p, s.now).attempts, s.tasks[t].port), s.now)
    {
      if s.tasks[t].port == p { TrimKeepsRun(s.tasks[t], h, s.now); }
    }
  }

  /** Histories that differ at one port only. */
  lemma HistoriesAt(s: Sys, r: Sys, p: Port)
    requires HistoriesOk(s.m.attempts, s.audit.log, s.audit.orphaned, s.m.withheld, s.now) && r.now == s.now
    requires forall q :: q != p ==> TimesOf(r.m.attempts, q) == TimesOf(s.m.attempts, q)
    requires forall q :: q != p ==> TimesOf(r.audit.log, q) == TimesOf(s.audit.log, q)
    requires forall q :: q != p ==> (q in r.audit.orphaned <==> q in s.audit.orphaned)
    requires forall q :: q != p ==> (q in r.m.withheld <==> q in s.m.withheld)
    requires HistoryOk(TimesOf(r.m.attempts, p), TimesOf(r.audit.log, p), p in r.audit.orphaned, p in r.m.withheld,
                       s.now)
    ensures HistoriesOk(r.m.attempts, r.audit.log, r.audit.orphaned, r.m.withheld, s.now)
  {
    hide HistoryOk; hide TimesOf;
    forall q
      ensures HistoryOk(TimesOf(r.m.attempts, q), TimesOf(r.audit.log, q), q in r.audit.orphaned, q in r.m.withheld,
                        s.now)
    {
      assert HistoryOk(TimesOf(s.m.attempts, q), TimesOf(s.audit.log, q), q in s.audit.orphaned, q in s.m.withheld,
                       s.now);
    }
  }

  lemma TrimKeepsAttempts(s: Sys, p: Port)
    requires AttemptsOk(s.m.attempts, s.audit.log, s.audit.orphaned, s.m.withheld, s.tasks, s.now)
    ensures AttemptsOk(TrimAttempts(s.m, p, s.now).attempts, s.audit.log, s.audit.orphaned, s.m.withheld, s.tasks,
                       s.now)
  {
    hide HistoryOk; hide Trim;
    TrimmedHistory(TimesOf(s.m.attempts, p), TimesOf(s.audit.log, p), p in s.audit.orphaned, p in s.m.withheld, s.now);
    HistoriesAt(s, s.(m := TrimAttempts(s.m, p, s.now)), p);
  }

  lemma TrimKeepsRecords(s: Sys, p: Port)
    requires RecordsOk(s.m.withheld, s.audit.history, s.audit.accounts, s.m.attempts, s.m.nodes.info)
    ensures RecordsOk(s.m.withheld, s.audit.history, s.audit.accounts, TrimAttempts(s.m, p, s.now).attempts,
                      s.m.nodes.info)
  {
    hide AccountOk;
  }

  lemma TrimKeeps(s: Sys, p: Port)
    requires Inv(s)
    ensures Inv(s.(m := TrimAttempts(s.m, p, s.now)))
  {
    hide EventsOk; hide NodesOk; hide TasksOk; hide RecordsOk; hide OwnersOk; hide AttemptsOk; hide RunsOk; hide Trim;
    TrimKeepsRuns(s, p);
    TrimKeepsAttempts(s, p);
    TrimKeepsRecords(s, p);
  }

  // ---- Head of the restart loop ----

  /** The auto-restart tasks nobody cancelled on this port are between awaits. */
  ghost predicate Quiet(tasks: map<TaskId, Task>, p: Port) {
    forall t :: t in tasks && tasks[t].role == AutoRestart && !tasks[t].cancelled && tasks[t].port == p ==>
          tasks[t].stage.Created?
  }

  ghost predicate LatestIsCrash(s: Sys, p: Port) {
    var n := s.m.lastSequence;
    1 <= n == |s.audit.history| && n !in s.audit.accounts
    && s.audit.history[n - 1].port == p && s.audit.history[n - 1].kind == CrashDetected
       && s.audit.history[n - 1].at == s.now
  }

  lemma ArmKeepsRecords(s: Sys, p: Port)
    requires RecordsOk(s.m.withheld, s.audit.history, s.audit.accounts, s.m.attempts, s.m.nodes.info)
    requires LatestIsCrash(s, p) && TimesOf(s.m.attempts, p) == [] && p in s.m.nodes.info
    ensures RecordsOk(ArmLatest(s, p).m.withheld, s.audit.history, ArmLatest(s, p).audit.accounts, s.m.attempts,
                      s.m.nodes.info)
  {
  }

  lemma ArmKeepsTasks(s: Sys, p: Port)
    requires OwnersOk(s.tasks, s.m.withheld) && Quiet(s.tasks, p) && TimesOf(s.m.attempts, p) == []
    requires RoomsOk(s.m.attempts, s.audit.orphaned, s.m.withheld, s.tasks)
    ensures OwnersOk(s.tasks, ArmLatest(s, p).m.withheld)
    ensures RoomsOk(s.m.attempts, s.audit.orphaned, ArmLatest(s, p).m.withheld, s.tasks)
  {
  }

  lemma ArmKeepsHistories(s: Sys, p: Port)
    requires TimesOf(s.m.attempts, p) == []
    requires HistoriesOk(s.m.attempts, s.audit.log, s.audit.orphaned, s.m.withheld, s.now)
    ensures HistoriesOk(s.m.attempts, s.audit.log, s.audit.orphaned, ArmLatest(s, p).m.withheld, s.now)
  {
    hide HistoryOk; hide TimesOf;
    assert HistoryOk(TimesOf(s.m.attempts, p), TimesOf(s.audit.log, p), p in s.audit.orphaned, p in s.m.withheld,
                     s.now);
    WithheldHistory(TimesOf(s.m.attempts, p), TimesOf(s.audit.log, p), p in s.audit.orphaned, p in s.m.withheld, true,
                    s.now);
    HistoriesAt(s, ArmLatest(s, p), p);
  }

  lemma ArmKeeps(s: Sys, p: Port)
    requires Inv(s) && Quiet(s.tasks, p) && LatestIsCrash(s, p) && TimesOf(s.m.attempts, p) == [] && p in s.m.nodes.info
    ensures Inv(ArmLatest(s, p))
  {
    hide EventsOk; hide NodesOk; hide TasksOk; hide RecordsOk; hide OwnersOk; hide HistoriesOk; hide RoomsOk;
    hide CrowdsOk; hide RunsOk;
    ArmKeepsRecords(s, p);
    ArmKeepsTasks(s, p);
    ArmKeepsHistories(s, p);
  }

  /** What a task knows when it is about to sleep or to start. */
  ghost predicate FitsRecord(withheld: map<Port, Withheld>, p: Port, loop: Loop, charged: bool) {
    p in withheld ==>
      (loop.isFirst ==> withheld[p].sequence == loop.sequence) && (withheld[p].charged <==> charged)
  }

  /** Put a task that is between awaits back on an await outside the lock. */
  lemma ResumeKeepsTasks(s: Sys, t: TaskId, task: Task)
    requires TasksOk(s.m.nodes, s.alive, s.lock, s.tasks, s.nextTask) && At(s, t)
    requires s.tasks[t].role == AutoRestart && s.tasks[t].stage.Created?
    requires task.role == AutoRestart && task.port == s.tasks[t].port && !task.cancelled
             && (task.stage.Backoff? || task.stage.Resolving?)
    ensures TasksOk(s.m.nodes, s.alive, s.lock, s.tasks[t := task], s.nextTask)
  {
    hide Running; hide ServedElsewhere;
  }

  lemma ResumeKeepsOwnership(s: Sys, t: TaskId, task: Task)
    requires OwnersOk(s.tasks, s.m.withheld) && t in s.tasks
    requires AttemptsOk(s.m.attempts, s.audit.log, s.audit.orphaned, s.m.withheld, s.tasks, s.now)
    requires RunsOk(s.tasks, s.m.attempts, s.now)
    requires task.role == AutoRestart && (task.stage.Backoff? || task.stage.Resolving?)
    requires FitsRecord(s.m.withheld, task.port, task.loop, !(task.loop.isFirst && task.stage.Backoff?))
    requires task.stage.Backoff? ==> |TimesOf(s.m.attempts, task.port)| <= 4
    requires RunOk(task, TimesOf(s.m.attempts, task.port), s.now)
    ensures OwnersOk(s.tasks[t := task], s.m.withheld)
    ensures AttemptsOk(s.m.attempts, s.audit.log, s.audit.orphaned, s.m.withheld, s.tasks[t := task], s.now)
    ensures RunsOk(s.tasks[t := task], s.m.attempts, s.now)
  {
    hide HistoriesOk; hide RunOk;
  }

  lemma ResumeKeeps(s: Sys, t: TaskId, task: Task)
    requires Inv(s) && At(s, t) && s.tasks[t].role == AutoRestart && s.tasks[t].stage.Created?
    requires task.role == AutoRestart && task.port == s.tasks[t].port && !task.cancelled
             && (task.stage.Backoff? || task.stage.Resolving?)
    requires FitsRecord(s.m.withheld, task.port, task.loop, !(task.loop.isFirst && task.stage.Backoff?))
    requires task.stage.Backoff? ==> |TimesOf(s.m.attempts, task.port)| <= 4
    requires RunOk(task, TimesOf(s.m.attempts, task.port), s.now)
    ensures Inv(SetTask(s, t, task))
  {
    hide EventsOk; hide NodesOk; hide TasksOk; hide RecordsOk; hide OwnersOk; hide AttemptsOk; hide RunsOk; hide RunOk;
    hide FitsRecord;
    ResumeKeepsTasks(s, t, task);
    ResumeKeepsOwnership(s, t, task);
  }

  /** A loop about to begin an iteration; `top` is its beginning. */
  ghost predicate LoopEntry(loop: Loop, h: seq<Time>, now: Time) {
    && loop.began <= loop.top == now
    && (loop.timely ==>
          loop.starts <= 5 && now - loop.began <= ITERATION_BOUND_SEC * loop.starts as real
              && Recent(h, loop.starts, loop.began))
  }

  lemma EntryTrimmed(loop: Loop, h: seq<Time>, now: Time, p: Port, sequence: nat, attempt: nat, wakeAt: Time)
    requires LoopEntry(loop, h, now) && Ascending(h, now)
    requires attempt == |Trim(h, now)| + 1 <= AUTO_RESTART_MAX_ATTEMPTS
    ensures RunOk(Sleeping(p, loop, sequence, attempt, wakeAt), Trim(h, now), now)
  {
    hide Trim; hide Ascending;
    if loop.timely { TrimKeepsRecent(h, loop.starts, loop.began, now); }
  }

  lemma OnlyTask(s: Sys, t: TaskId, p: Port)
    requires TasksOk(s.m.nodes, s.alive, s.lock, s.tasks, s.nextTask) && At(s, t)
    requires s.tasks[t].role == AutoRestart && s.tasks[t].stage.Created? && s.tasks[t].port == p
    ensures Quiet(s.tasks, p) && p in s.m.nodes.info
  {
    hide Running; hide ServedElsewhere;
  }

  lemma FreshSequence(s: Sys)
    requires RecordsOk(s.m.withheld, s.audit.history, s.audit.accounts, s.m.attempts, s.m.nodes.info)
    ensures |s.audit.history| + 1 !in s.audit.accounts
  {
  }

  lemma HistoryOf(s: Sys, p: Port)
    requires AttemptsOk(s.m.attempts, s.audit.log, s.audit.orphaned, s.m.withheld, s.tasks, s.now)
    ensures HistoryOk(TimesOf(s.m.attempts, p), TimesOf(s.audit.log, p), p in s.audit.orphaned, p in s.m.withheld,
                      s.now)
    ensures Ascending(TimesOf(s.m.attempts, p), s.now)
  {
    hide Spaced;
  }

  /** An uncharged record sits on an empty history. */
  lemma UnchargedIsEmpty(s: Sys, p: Port)
    requires RecordsOk(s.m.withheld, s.audit.history, s.audit.accounts, s.m.attempts, s.m.nodes.info)
    requires p in s.m.withheld && !s.m.withheld[p].charged
    ensures TimesOf(s.m.attempts, p) == []
  {
    assert RecordOk(p, s.m.withheld[p], s.audit.history, s.audit.accounts, s.m.attempts, s.m.nodes.info);
  }

  /** The crash is on record and the task is about to sleep. */
  lemma CrashNoted(s: Sys, p: Port, attempt: nat, delay: Option<nat>)
    requires Inv(s)
    ensures var r := Record(s.(m := TrimAttempts(s.m, p, s.now)), CrashDetected, p, KnownPid(s.m, p), attempt, delay,
                            true);
            && Inv(r) && LatestIsCrash(r, p)
            && r.tasks == s.tasks && r.now == s.now && r.m.nodes == s.m.nodes
               && TimesOf(r.m.attempts, p) == Trim(TimesOf(s.m.attempts, p), s.now)
  {
    hide NodesOk; hide TasksOk; hide RecordsOk; hide OwnersOk; hide AttemptsOk; hide RunsOk; hide Trim; hide Chronicle;
    hide Newest;
    var trimmed := s.(m := TrimAttempts(s.m, p, s.now));
    TrimKeeps(s, p);
    RecordKeeps(trimmed, CrashDetected, p, KnownPid(s.m, p), attempt, delay, true);
    FreshSequence(s);
  }

  lemma FallsAsleep(s: Sys, t: TaskId, p: Port, loop: Loop, attempt: nat, wakeAt: Time)
    requires Inv(s) && At(s, t) && s.tasks[t].role == AutoRestart && s.tasks[t].stage.Created? && s.tasks[t].port == p
    requires LatestIsCrash(s, p) && attempt == |TimesOf(s.m.attempts, p)| + 1 <= AUTO_RESTART_MAX_ATTEMPTS
    requires RunOk(Sleeping(p, loop, s.m.lastSequence, attempt, wakeAt), TimesOf(s.m.attempts, p), s.now)
    ensures Inv(SetTask(if attempt == 1 then ArmLatest(s, p)
                        else s, t, Sleeping(p, loop, s.m.lastSequence, attempt, wakeAt)))
  {
    hide EventsOk; hide NodesOk; hide TasksOk; hide RecordsOk; hide OwnersOk; hide AttemptsOk; hide RunsOk; hide RunOk;
    OnlyTask(s, t, p);
    if attempt == 1 {
      ArmKeeps(s, p);
    } else if p in s.m.withheld && !s.m.withheld[p].charged {
      UnchargedIsEmpty(s, p);
    }
    ResumeKeeps(if attempt == 1 then ArmLatest(s, p) else s, t, Sleeping(p, loop, s.m.lastSequence, attempt, wakeAt));
  }

  lemma LoopHeadSleeps(s: Sys, t: TaskId, p: Port, loop: Loop, attempt: nat, crashed: Sys, wakeAt: Time,
                       delay: Option<nat>)
    requires Inv(s) && At(s, t) && s.tasks[t].role == AutoRestart && s.tasks[t].stage.Created? && s.tasks[t].port == p
    requires LoopEntry(loop, TimesOf(s.m.attempts, p), s.now)
    requires attempt == |Trim(TimesOf(s.m.attempts, p), s.now)| + 1 <= AUTO_RESTART_MAX_ATTEMPTS
    requires crashed == Record(s.(m := TrimAttempts(s.m, p, s.now)), CrashDetected, p, KnownPid(s.m, p), attempt, delay,
                               true)
    ensures Inv(SetTask(if attempt == 1 then ArmLatest(crashed, p)
                        else crashed, t, Sleeping(p, loop, crashed.m.lastSequence, attempt, wakeAt)))
  {
    hide EventsOk; hide NodesOk; hide TasksOk; hide RecordsOk; hide OwnersOk; hide AttemptsOk; hide RunsOk; hide RunOk;
    hide Trim; hide Ascending;
    hide Record; hide LoopEntry; hide LatestIsCrash; hide ArmLatest;
    CrashNoted(s, p, attempt, delay);
    HistoryOf(s, p);
    EntryTrimmed(loop, TimesOf(s.m.attempts, p), s.now, p, crashed.m.lastSequence, attempt, wakeAt);
    FallsAsleep(crashed, t, p, loop, attempt, wakeAt);
  }

  lemma LoopHeadKeeps(s: Sys, t: TaskId, p: Port, loop: Loop)
    requires Inv(s) && At(s, t) && s.tasks[t].role == AutoRestart && s.tasks[t].stage.Created? && s.tasks[t].port == p
    requires LoopEntry(loop, TimesOf(s.m.attempts, p), s.now)
    ensures Inv(LoopHead(s, t, p, loop))
  {
    hide Inv; hide LoopEntry; hide Trim; hide NextDelay;
    if p in s.m.intentionalStop || p in s.m.stopPending {
      LeaveKeeps(s, t);
    } else {
      var trimmed := s.(m := TrimAttempts(s.m, p, s.now));
      var attempt := |Trim(TimesOf(s.m.attempts, p), s.now)| + 1;
      if attempt > AUTO_RESTART_MAX_ATTEMPTS {
        TrimKeeps(s, p);
        RecordKeeps(trimmed, CrashDetected, p, KnownPid(s.m, p), attempt, None, false);
        var crashed := Record(trimmed, CrashDetected, p, KnownPid(s.m, p), attempt, None, false);
        RecordKeeps(crashed, RestartExhausted, p, KnownPid(s.m, p), attempt, None, false);
        LeaveKeeps(Exhaust(trimmed, p, attempt), t);
      } else {
        LoopHeadSleeps(s, t, p, loop, attempt,
                       Record(trimmed, CrashDetected, p, KnownPid(s.m, p), attempt, Some(NextDelay(s.m, p)), true),
                       s.now + NextDelay(s.m, p) as real, Some(NextDelay(s.m, p)));
      }
    }
  }

  /** Trimming a port's history changes nothing else. */
  lemma TrimKeepsRest(m: Manager, p: Port, now: Time)
    ensures var r := TrimAttempts(m, p, now);
            && r.nodes == m.nodes && r.lastSequence == m.lastSequence && r.ring == m.ring && r.withheld == m.withheld
            && r.backoff == m.backoff && r.stopPending == m.stopPending && r.intentionalStop == m.intentionalStop
  {
  }
}
