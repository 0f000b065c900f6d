/** Every step of the process manager keeps the invariant. */
module ManagerTransitions {
  import opened Options
  import opened ManagerState
  import opened ManagerSteps
  import opened ManagerInvariant
  import opened ManagerOperations

  // ---- Charging an attempt and entering start() ----

  lemma ChargeKeepsRecords(s: Sys, p: Port, loop: Loop)
    requires RecordsOk(s.m.withheld, s.audit.history, s.audit.accounts, s.m.attempts, s.m.nodes.info)
    requires FitsRecord(s.m.withheld, p, loop, !loop.isFirst)
    ensures RecordsOk(Charge(s, p, loop).m.withheld, s.audit.history, Charge(s, p, loop).audit.accounts,
                      Charge(s, p, loop).m.attempts, s.m.nodes.info)
  {
    hide Trim;
    var r := Charge(s, p, loop);
    forall q | q in r.m.withheld
      ensures RecordOk(q, r.m.withheld[q], s.audit.history, r.audit.accounts, r.m.attempts, s.m.nodes.info)
    {
      assert RecordOk(q, s.m.withheld[q], s.audit.history, s.audit.accounts, s.m.attempts, s.m.nodes.info);
      if p in s.m.withheld {
        assert RecordOk(p, s.m.withheld[p], s.audit.history, s.audit.accounts, s.m.attempts, s.m.nodes.info);
      }
    }
  }

  lemma ChargeKeepsOwners(s: Sys, p: Port, loop: Loop)
    requires OwnersOk(s.tasks, s.m.withheld) && Quiet(s.tasks, p)
    ensures OwnersOk(s.tasks, Charge(s, p, loop).m.withheld)
  {
    hide Trim;
  }

  ghost predicate RoomToCharge(s: Sys, p: Port) {
    var h := TimesOf(s.m.attempts, p);
    && |h| <= 5
    && (p !in s.audit.orphaned || p in s.m.withheld ==> |h| <= 4)
    && (forall t :: t in s.tasks && Adopting(s.tasks[t]) && s.tasks[t].port == p ==> |h| <= 4)
  }

  lemma ChargeKeepsHistories(s: Sys, p: Port, loop: Loop)
    requires HistoriesOk(s.m.attempts, s.audit.log, s.audit.orphaned, s.m.withheld, s.now) && RoomToCharge(s, p)
    ensures var r := Charge(s, p, loop); HistoriesOk(r.m.attempts, r.audit.log, r.audit.orphaned, r.m.withheld, s.now)
  {
    hide HistoryOk; hide Trim;
    assert HistoryOk(TimesOf(s.m.attempts, p), TimesOf(s.audit.log, p), p in s.audit.orphaned, p in s.m.withheld,
                     s.now);
    ChargedHistory(TimesOf(s.m.attempts, p), TimesOf(s.audit.log, p), p in s.audit.orphaned, p in s.m.withheld, s.now);
    HistoriesAt(s, Charge(s, p, loop), p);
  }

  lemma ChargeKeepsRooms(s: Sys, p: Port, loop: Loop)
    requires RoomsOk(s.m.attempts, s.audit.orphaned, s.m.withheld, s.tasks) && CrowdsOk(s.m.attempts, s.tasks)
    requires Quiet(s.tasks, p) && RoomToCharge(s, p)
    ensures var r := Charge(s, p, loop);
            RoomsOk(r.m.attempts, r.audit.orphaned, r.m.withheld, s.tasks) && CrowdsOk(r.m.attempts, s.tasks)
  {
    hide Trim;
    var r := Charge(s, p, loop);
    assert forall q :: q != p ==> TimesOf(r.m.attempts, q) == TimesOf(s.m.attempts, q);
    assert |TimesOf(r.m.attempts, p)| <= |TimesOf(s.m.attempts, p)| + 1;
    assert forall q :: (q in r.m.withheld <==> q in s.m.withheld);
    assert r.audit.orphaned == s.audit.orphaned;
    hide Charge; hide TimesOf;
    forall t | t in s.tasks
      ensures RoomOk(s.tasks[t], TimesOf(r.m.attempts, s.tasks[t].port), s.tasks[t].port in r.audit.orphaned,
                     s.tasks[t].port in r.m.withheld)
    {
      assert RoomOk(s.tasks[t], TimesOf(s.m.attempts, s.tasks[t].port), s.tasks[t].port in s.audit.orphaned,
                    s.tasks[t].port in s.m.withheld);
    }
  }

  lemma ChargeKeeps(s: Sys, p: Port, loop: Loop)
    requires Inv(s) && Quiet(s.tasks, p) && RoomToCharge(s, p) && FitsRecord(s.m.withheld, p, loop, !loop.isFirst)
    ensures Inv(Charge(s, p, loop))
  {
    hide EventsOk; hide NodesOk; hide TasksOk; hide RecordsOk; hide OwnersOk; hide HistoriesOk; hide RoomsOk;
    hide CrowdsOk; hide RunsOk; hide Trim;
    ChargeKeepsRecords(s, p, loop);
    ChargeKeepsOwners(s, p, loop);
    assert AttemptsOk(s.m.attempts, s.audit.log, s.audit.orphaned, s.m.withheld, s.tasks, s.now);
    ChargeKeepsHistories(s, p, loop);
    ChargeKeepsRooms(s, p, loop);
    TrimKeepsRuns(s, p);
  }

  /** What a sleeping task knows about its record and its room. */
  lemma SleeperKnows(s: Sys, t: TaskId, p: Port)
    requires OwnersOk(s.tasks, s.m.withheld) && At(s, t) && s.tasks[t].role == AutoRestart && s.tasks[t].stage.Backoff?
             && s.tasks[t].port == p
    requires AttemptsOk(s.m.attempts, s.audit.log, s.audit.orphaned, s.m.withheld, s.tasks, s.now)
    ensures FitsRecord(s.m.withheld, p, s.tasks[t].loop, !s.tasks[t].loop.isFirst)
    ensures RoomToCharge(s, p)
  {
    hide HistoryOk;
    assert OwnerOk(s.tasks[t], s.m.withheld);
  }

  lemma WokenRun(task: Task, h: seq<Time>, now: Time, attempt: nat)
    requires RunOk(task, h, now) && Ascending(h, now) && task.role == AutoRestart && !task.cancelled
             && task.stage.Backoff?
    ensures RunOk(Task(AutoRestart, task.port, Resolving, false,
                       task.loop.(starts := task.loop.starts + 1, attempt := attempt)), Trim(h, now) + [now], now)
  {
    hide Ascending; hide Trim; hide Recent;
    if task.loop.timely && now - task.loop.top <= ITERATION_BOUND_SEC {
      TrimKeepsRecent(h, task.loop.starts, task.loop.began, now);
      TrimAscends(h, now);
      AppendKeepsRecent(Trim(h, now), task.loop.starts, task.loop.began, now);
    }
  }

  lemma WakeCharges(s: Sys, t: TaskId, p: Port)
    requires Inv(s) && At(s, t) && s.tasks[t].role == AutoRestart && s.tasks[t].stage.Backoff? && s.tasks[t].port == p
    ensures var charged := Charge(Park(s, t), p, s.tasks[t].loop);
            && Inv(charged) && FitsRecord(charged.m.withheld, p, s.tasks[t].loop, true)
            && RunOk(Task(AutoRestart, p, Resolving, false,
                          s.tasks[t].loop.(starts := s.tasks[t].loop.starts + 1,
                                           attempt := |TimesOf(charged.m.attempts, p)|)),
                     TimesOf(charged.m.attempts, p), s.now)
  {
    hide EventsOk; hide NodesOk; hide TasksOk; hide RecordsOk; hide OwnersOk; hide AttemptsOk; hide RunOk; hide Trim;
    hide Ascending;
    var loop := s.tasks[t].loop;
    var parked := Park(s, t);
    SleeperKnows(s, t, p);
    assert RunOk(s.tasks[t], TimesOf(s.m.attempts, p), s.now);
    HistoryOf(s, p);
    ParkKeeps(s, t);
    OnlyTask(parked, t, p);
    assert RoomToCharge(parked, p);
    ChargeKeeps(parked, p, loop);
    WokenRun(s.tasks[t], TimesOf(s.m.attempts, p), s.now, |Trim(TimesOf(s.m.attempts, p), s.now) + [s.now]|);
  }

  // ---- Forgetting a port ----

  lemma CancelShrinks(tasks: map<TaskId, Task>, entries: map<Port, TaskId>, p: Port, self: TaskId)
    ensures Shrunk(tasks, CancelEntry(tasks, entries, p, self))
  {
  }

  lemma ForgetShrinks(s: Sys, p: Port, self: TaskId)
    ensures Shrunk(s.tasks, Forget(s, p, self).tasks)
  {
  }

  lemma ForgetKeepsNodes(n: Nodes, alive: set<Pid>, nextPid: Pid, p: Port, self: TaskId)
    requires NodesOk(n, alive, nextPid)
    ensures NodesOk(ForgetNode(n, p, self), alive, nextPid)
  {
  }

  lemma ForgottenTask(n: Nodes, alive: set<Pid>, lock: Option<TaskId>, t: TaskId, before: Task, after: Task, p: Port,
                      self: TaskId)
    requires TaskOk(n, alive, lock, t, before) && (after == before || after == before.(cancelled := true))
    requires after.port == p && after.role == AutoRestart ==> after.cancelled
    requires lock.None? || Running(n, alive, p)
    ensures TaskOk(ForgetNode(n, p, self), alive, lock, t, after)
  {
  }

  lemma ForgetKeepsEntries(s: Sys, p: Port, self: TaskId)
    requires TasksOk(s.m.nodes, s.alive, s.lock, s.tasks, s.nextTask)
    ensures var r := Forget(s, p, self);
            && (forall q :: q in r.m.nodes.restartTasks ==>
                  EntryOk(r.tasks, r.nextTask, q, r.m.nodes.restartTasks[q], AutoRestart))
            && (forall q :: q in r.m.nodes.watchTasks ==>
                  EntryOk(r.tasks, r.nextTask, q, r.m.nodes.watchTasks[q], Watcher))
            && (r.lock.Some? ==> r.lock.value in r.tasks && HoldsLock(r.tasks[r.lock.value].stage))
  {
    hide TaskOk;
  }

  lemma ForgetKeepsTasks(s: Sys, p: Port, self: TaskId)
    requires TasksOk(s.m.nodes, s.alive, s.lock, s.tasks, s.nextTask)
    requires self in s.tasks ==> s.tasks[self].role == StopCall
    requires s.lock.None? || Running(s.m.nodes, s.alive, p)
    ensures var r := Forget(s, p, self); TasksOk(r.m.nodes, r.alive, r.lock, r.tasks, r.nextTask)
  {
    hide TaskOk; hide CancelEntry; hide ForgetNode; hide EntryOk; hide Running;
    var r := Forget(s, p, self);
    ForgetShrinks(s, p, self);
    ForgetVacates(s, p, self);
    ForgetKeepsEntries(s, p, self);
    forall t | t in r.tasks
      ensures t < r.nextTask && TaskOk(r.m.nodes, r.alive, r.lock, t, r.tasks[t])
    {
      ForgottenTask(s.m.nodes, s.alive, s.lock, t, s.tasks[t], r.tasks[t], p, self);
    }
  }

  lemma ForgetKeepsRecords(s: Sys, p: Port, self: TaskId)
    requires RecordsOk(s.m.withheld, s.audit.history, s.audit.accounts, s.m.attempts, s.m.nodes.info)
    ensures var r := Forget(s, p, self);
            RecordsOk(r.m.withheld, r.audit.history, r.audit.accounts, r.m.attempts, r.m.nodes.info)
  {
    var r := Forget(s, p, self);
    forall q | q in r.m.withheld
      ensures RecordOk(q, r.m.withheld[q], r.audit.history, r.audit.accounts, r.m.attempts, r.m.nodes.info) {
      assert RecordOk(q, s.m.withheld[q], s.audit.history, s.audit.accounts, s.m.attempts, s.m.nodes.info);
    }
  }

  /** Nobody is left on the port who would charge it. */
  ghost predicate Vacated(tasks: map<TaskId, Task>, p: Port) {
    forall t :: t in tasks && tasks[t].port == p && tasks[t].role == AutoRestart ==> tasks[t].cancelled
  }

  lemma ForgetVacates(s: Sys, p: Port, self: TaskId)
    requires TasksOk(s.m.nodes, s.alive, s.lock, s.tasks, s.nextTask)
    requires self in s.tasks ==> s.tasks[self].role == StopCall
    ensures Vacated(Forget(s, p, self).tasks, p)
  {
    hide Running; hide ServedElsewhere;
    var r := Forget(s, p, self);
    forall t | t in r.tasks && r.tasks[t].port == p && r.tasks[t].role == AutoRestart ensures r.tasks[t].cancelled {
      assert TaskOk(s.m.nodes, s.alive, s.lock, t, s.tasks[t]);
    }
  }

  lemma ForgetKeepsHistories(s: Sys, p: Port, self: TaskId)
    requires HistoriesOk(s.m.attempts, s.audit.log, s.audit.orphaned, s.m.withheld, s.now)
    ensures var r := Forget(s, p, self); HistoriesOk(r.m.attempts, r.audit.log, r.audit.orphaned, r.m.withheld, s.now)
  {
    hide HistoryOk; hide CancelEntry; hide ForgetNode;
    EmptyHistory(s.now);
    HistoriesAt(s, Forget(s, p, self), p);
  }

  lemma ForgetKeepsRooms(s: Sys, tasks: map<TaskId, Task>, p: Port, self: TaskId)
    requires OwnersOk(tasks, s.m.withheld) && Vacated(tasks, p)
    requires RoomsOk(s.m.attempts, s.audit.orphaned, s.m.withheld, tasks) && CrowdsOk(s.m.attempts, tasks)
    requires RunsOk(tasks, s.m.attempts, s.now)
    ensures var r := Forget(s, p, self);
            && OwnersOk(tasks, r.m.withheld)
            && RoomsOk(r.m.attempts, r.audit.orphaned, r.m.withheld, tasks) && CrowdsOk(r.m.attempts, tasks)
            && RunsOk(tasks, r.m.attempts, s.now)
  {
    var r := Forget(s, p, self);
    assert forall q :: q != p ==> TimesOf(r.m.attempts, q) == TimesOf(s.m.attempts, q);
    assert TimesOf(r.m.attempts, p) == [];
    hide Recent; hide CancelEntry; hide ForgetNode; hide TimesOf;
  }

  lemma EmptyHistory(now: Time)
    ensures HistoryOk([], [], false, false, now)
  {
  }

  lemma ForgetKeeps(s: Sys, p: Port, self: TaskId)
    requires Inv(s)
    requires self in s.tasks ==> s.tasks[self].role == StopCall
    requires s.lock.None? || Running(s.m.nodes, s.alive, p)
    ensures Inv(Forget(s, p, self))
  {
    hide EventsOk; hide NodesOk; hide TasksOk; hide RecordsOk; hide OwnersOk; hide HistoriesOk; hide RoomsOk;
    hide CrowdsOk; hide RunsOk;
    hide Shrunk; hide Vacated; hide CancelEntry; hide ForgetNode;
    ForgetShrinks(s, p, self);
    ForgetKeepsNodes(s.m.nodes, s.alive, s.nextPid, p, self);
    ForgetKeepsTasks(s, p, self);
    ForgetKeepsRecords(s, p, self);
    ForgetVacates(s, p, self);
    ShrunkKeeps(s.tasks, Forget(s, p, self).tasks, s);
    ForgetKeepsHistories(s, p, self);
    ForgetKeepsRooms(s, Forget(s, p, self).tasks, p, self);
  }

  // ---- Leaving start() and stop() ----

  lemma BackoffTableKeeps(s: Sys, backoff: map<Port, nat>)
    requires Inv(s)
    ensures Inv(s.(m := s.m.(backoff := backoff)))
  {
    hide EventsOk; hide NodesOk; hide TasksOk; hide RecordsOk; hide OwnersOk; hide AttemptsOk; hide RunsOk;
  }

  /** An iteration that ended leaves its loop ready for the next one. */
  lemma NextEntry(task: Task, h: seq<Time>, now: Time)
    requires RunOk(task, h, now) && task.role == AutoRestart && !task.cancelled && !task.stage.Created?
             && !task.stage.Backoff?
    ensures LoopEntry(NextIteration(task.loop, now), h, now)
  {
    hide Recent;
  }

  lemma RunOf(s: Sys, t: TaskId)
    requires RunsOk(s.tasks, s.m.attempts, s.now) && t in s.tasks
    ensures RunOk(s.tasks[t], TimesOf(s.m.attempts, s.tasks[t].port), s.now)
  {
  }

  ghost predicate InStart(s: Sys, t: TaskId) {
    At(s, t) && (s.tasks[t].stage.Resolving? || s.tasks[t].stage.Waiting? || s.tasks[t].stage.Spawning?)
  }

  /** Only the task itself may hold the lock when its start raises AlreadyRunning or PortOccupied. */
  lemma StartRaisesKeeps(s: Sys, t: TaskId, failure: Failure)
    requires Inv(s) && InStart(s, t)
    requires failure in {AlreadyRunning, PortOccupied} ==> s.lock.None? || s.lock == Some(t)
    ensures Inv(StartRaises(s, t, failure))
  {
    hide Inv;
    var task := s.tasks[t];
    var p := task.port;
    if task.role != AutoRestart || failure == Deferred {
      LeaveKeeps(s, t);
    } else if failure == AlreadyRunning {
      LeaveKeeps(s, t);
      ForgetKeeps(Leave(s, t), p, t);
    } else if failure == PortOccupied {
      LeaveKeeps(s, t);
      RecordKeeps(Leave(s, t), PortConflict, p, KnownPid(s.m, p), task.loop.attempt, None, false);
      ForgetKeeps(Record(Leave(s, t), PortConflict, p, KnownPid(s.m, p), task.loop.attempt, None, false), p, t);
    } else {
      StartFailedKeeps(s, t);
    }
  }

  lemma StartFailedKeeps(s: Sys, t: TaskId)
    requires Inv(s) && InStart(s, t) && s.tasks[t].role == AutoRestart
    ensures Inv(StartRaises(s, t, Failed))
  {
    hide EventsOk; hide NodesOk; hide TasksOk; hide RecordsOk; hide OwnersOk; hide AttemptsOk; hide RunsOk;
    hide LoopHead; hide RunOk; hide LoopEntry; hide Forget;
    var task := s.tasks[t];
    var p := task.port;
    RunOf(s, t);
    NextEntry(task, TimesOf(s.m.attempts, p), s.now);
    var parked := Park(s, t);
    ParkKeeps(s, t);
    var backed := parked.(m := AdvanceBackoff(s.m, p));
    BackoffTableKeeps(parked, AdvanceBackoff(s.m, p).backoff);
    assert backed == parked.(m := parked.m.(backoff := AdvanceBackoff(s.m, p).backoff));
    ReleaseIfFirstKeeps(backed, p, task.loop);
    LoopHeadKeeps(ReleaseIfFirst(backed, p, task.loop), t, p, NextIteration(task.loop, s.now));
  }

  lemma DischargeUnservedKeeps(s: Sys, p: Port, adopted: bool)
    requires Inv(s)
    ensures Inv(DischargeUnserved(s, p, adopted))
  {
    hide Inv;
    ReleaseKeeps(s, p);
  }

  lemma CancelledKeeps(s: Sys, t: TaskId)
    requires Inv(s) && t in s.tasks
    ensures Inv(Cancelled(s, t))
  {
    hide Inv; hide DischargeUnserved;
    var adopted := s.tasks[t].stage.Spawning? && s.tasks[t].stage.adopted;
    DischargeUnservedKeeps(s, s.tasks[t].port, adopted);
    LeaveKeeps(DischargeUnserved(s, s.tasks[t].port, adopted), t);
  }

  lemma WakeKeeps(s: Sys, t: TaskId)
    requires Inv(s) && At(s, t) && s.tasks[t].stage.Backoff?
    ensures Inv(Wake(s, t, s.tasks[t].port, s.tasks[t].loop))
  {
    hide EventsOk; hide NodesOk; hide RecordsOk; hide OwnersOk; hide AttemptsOk; hide RunsOk; hide EntryOk; hide RunOk;
    hide Forget; hide Running; hide FitsRecord; hide Charge;
    var loop := s.tasks[t].loop;
    var p := s.tasks[t].port;
    if p in s.m.intentionalStop || p in s.m.stopPending || p !in s.m.nodes.specs {
      LeaveKeeps(s, t);
      ReleaseIfFirstKeeps(Leave(s, t), p, loop);
    } else {
      WakeCharges(s, t, p);
      WakeEnters(s, t, p, loop);
    }
  }

  lemma ChargeFrame(s: Sys, p: Port, loop: Loop)
    ensures var r := Charge(s, p, loop);
            r.tasks == s.tasks && r.alive == s.alive && r.m.nodes == s.m.nodes && r.lock == s.lock && r.now == s.now
  {
  }

  lemma WakeEnters(s: Sys, t: TaskId, p: Port, loop: Loop)
    requires At(s, t) && s.tasks[t].role == AutoRestart && s.tasks[t].port == p
    requires !(p in s.m.intentionalStop || p in s.m.stopPending || p !in s.m.nodes.specs)
    requires var charged := Charge(Park(s, t), p, loop);
             && Inv(charged) && FitsRecord(charged.m.withheld, p, loop, true)
             && RunOk(Task(AutoRestart, p, Resolving, false,
                           loop.(starts := loop.starts + 1, attempt := |TimesOf(charged.m.attempts, p)|)),
                      TimesOf(charged.m.attempts, p), s.now)
    ensures Inv(Wake(s, t, p, loop))
  {
    hide Inv; hide Charge; hide RunOk; hide Forget; hide Running;
    var charged := Charge(Park(s, t), p, loop);
    ChargeFrame(Park(s, t), p, loop);
    if Running(s.m.nodes, s.alive, p) {
      LeaveKeeps(charged, t);
      ForgetKeeps(Leave(charged, t), p, t);
    } else {
      ResumeKeeps(charged, t, Task(AutoRestart, p, Resolving, false,
                                   loop.(starts := loop.starts + 1, attempt := |TimesOf(charged.m.attempts, p)|)));
    }
  }

  // ---- Taking the start lock ----

  lemma TakeOverTasks(s: Sys, p: Port, self: TaskId)
    requires TasksOk(s.m.nodes, s.alive, s.lock, s.tasks, s.nextTask) && s.lock.None?
    ensures var r := TakeOver(s, p, self); TasksOk(r.m.nodes, r.alive, r.lock, r.tasks, r.nextTask)
  {
    hide Running; hide ServedElsewhere;
  }

  lemma TakeOverKeeps(s: Sys, p: Port, self: TaskId)
    requires Inv(s) && s.lock.None?
    ensures Inv(TakeOver(s, p, self))
  {
    hide EventsOk; hide TasksOk; hide RecordsOk; hide OwnersOk; hide AttemptsOk; hide RunsOk; hide CancelEntry;
    hide Shrunk;
    TakeOverTasks(s, p, self);
    CancelShrinks(s.tasks, s.m.nodes.restartTasks, p, self);
    var tasks := CancelEntry(s.tasks, s.m.nodes.restartTasks, p, self);
    ShrunkKeeps(s.tasks, tasks, s);
    var dropped := s.(m := s.m.(nodes := DropRestartTask(s.m.nodes, p, self)), tasks := tasks);
    DroppedNodes(s.m.nodes, s.alive, s.nextPid, p, self);
    ReapFrame(dropped.m, p, s.now);
    assert Inv(dropped);
    ReleaseKeeps(dropped, p);
  }

  lemma DroppedNodes(n: Nodes, alive: set<Pid>, nextPid: Pid, p: Port, self: TaskId)
    requires NodesOk(n, alive, nextPid)
    ensures NodesOk(DropRestartTask(n, p, self), alive, nextPid)
  {
  }

  lemma ReapFrame(m: Manager, p: Port, now: Time)
    ensures ReapStale(m, p, now).nodes == m.nodes
  {
  }

  lemma CommittedNodes(n: Nodes, alive: set<Pid>, nextPid: Pid, p: Port, spec: Spec)
    requires NodesOk(n, alive, nextPid)
    ensures NodesOk(n.(specs := n.specs[p := spec]), alive, nextPid)
  {
  }

  lemma CommittedTasks(s: Sys, t: TaskId)
    requires TasksOk(s.m.nodes, s.alive, s.lock, s.tasks, s.nextTask) && s.lock.None? && At(s, t)
             && s.tasks[t].stage.Waiting?
    requires !Running(s.m.nodes, s.alive, s.tasks[t].port)
    requires !ServedElsewhere(s.m.nodes, s.alive, s.tasks[t].stage.identity, s.tasks[t].port)
    ensures var r := Committed(s, t, s.tasks[t]); TasksOk(r.m.nodes, r.alive, r.lock, r.tasks, r.nextTask)
  {
  }

  /** A port without a registered task has no live auto-restart task. */
  lemma UnregisteredIsVacated(s: Sys, p: Port)
    requires TasksOk(s.m.nodes, s.alive, s.lock, s.tasks, s.nextTask) && p !in s.m.nodes.restartTasks
    ensures Vacated(s.tasks, p)
  {
    hide Running; hide ServedElsewhere;
  }

  /** A withheld port has room for the attempt an adopting start will charge. */
  lemma AdoptedHasRoom(s: Sys, p: Port)
    requires HistoriesOk(s.m.attempts, s.audit.log, s.audit.orphaned, s.m.withheld, s.now) && Adopts(s.m, p)
    ensures |TimesOf(s.m.attempts, p)| <= 5
  {
    hide Spaced; hide Ascending;
    assert HistoryOk(TimesOf(s.m.attempts, p), TimesOf(s.audit.log, p), p in s.audit.orphaned, p in s.m.withheld,
                     s.now);
  }

  lemma CommittedCrowds(s: Sys, t: TaskId)
    requires At(s, t) && s.tasks[t].stage.Waiting? && CrowdsOk(s.m.attempts, s.tasks)
    requires Adopts(s.m, s.tasks[t].port) ==> Vacated(s.tasks, s.tasks[t].port)
    ensures CrowdsOk(s.m.attempts, Committed(s, t, s.tasks[t]).tasks)
  {
    hide Adopts; hide TimesOf;
  }

  lemma CommittedRoom(s: Sys, t: TaskId)
    requires At(s, t) && s.tasks[t].stage.Waiting?
    requires var p := s.tasks[t].port; Adopts(s.m, p) ==> |TimesOf(s.m.attempts, p)| <= 5
    ensures var p := s.tasks[t].port;
            RoomOk(Committed(s, t, s.tasks[t]).tasks[t], TimesOf(s.m.attempts, p), p in s.audit.orphaned,
                   p in s.m.withheld)
  {
    hide TimesOf;
  }

  lemma CommittedRooms(s: Sys, t: TaskId)
    requires At(s, t) && s.tasks[t].stage.Waiting?
    requires HistoriesOk(s.m.attempts, s.audit.log, s.audit.orphaned, s.m.withheld, s.now)
    requires RoomsOk(s.m.attempts, s.audit.orphaned, s.m.withheld, s.tasks) && CrowdsOk(s.m.attempts, s.tasks)
    requires Adopts(s.m, s.tasks[t].port) ==> Vacated(s.tasks, s.tasks[t].port)
    ensures var tasks := Committed(s, t, s.tasks[t]).tasks;
            RoomsOk(s.m.attempts, s.audit.orphaned, s.m.withheld, tasks) && CrowdsOk(s.m.attempts, tasks)
  {
    CommittedCrowds(s, t);
    if Adopts(s.m, s.tasks[t].port) { AdoptedHasRoom(s, s.tasks[t].port); }
    CommittedRoom(s, t);
    hide HistoriesOk; hide CrowdsOk; hide Vacated; hide TimesOf; hide Adopts; hide RoomOk;
    var tasks := Committed(s, t, s.tasks[t]).tasks;
    forall u | u in tasks
      ensures RoomOk(tasks[u], TimesOf(s.m.attempts, tasks[u].port), tasks[u].port in s.audit.orphaned,
                     tasks[u].port in s.m.withheld)
    {
      assert u != t ==> tasks[u] == s.tasks[u];
    }
  }

  lemma CommittedLoops(s: Sys, t: TaskId)
    requires OwnersOk(s.tasks, s.m.withheld) && At(s, t) && s.tasks[t].stage.Waiting?
    requires RunsOk(s.tasks, s.m.attempts, s.now)
    ensures var tasks := Committed(s, t, s.tasks[t]).tasks;
            OwnersOk(tasks, s.m.withheld) && RunsOk(tasks, s.m.attempts, s.now)
  {
    hide Recent;
  }

  lemma CommittedKeeps(s: Sys, t: TaskId)
    requires Inv(s) && s.lock.None? && At(s, t) && s.tasks[t].stage.Waiting?
    requires !Running(s.m.nodes, s.alive, s.tasks[t].port)
    requires !ServedElsewhere(s.m.nodes, s.alive, s.tasks[t].stage.identity, s.tasks[t].port)
    ensures Inv(Committed(s, t, s.tasks[t]))
  {
    hide EventsOk; hide NodesOk; hide TasksOk; hide RecordsOk; hide OwnersOk; hide HistoriesOk; hide RoomsOk;
    hide CrowdsOk; hide RunsOk;
    hide Running; hide ServedElsewhere; hide Vacated;
    var p := s.tasks[t].port;
    CommittedNodes(s.m.nodes, s.alive, s.nextPid, p, Spec(s.tasks[t].stage.identity, s.tasks[t].stage.stops));
    CommittedTasks(s, t);
    if Adopts(s.m, p) { UnregisteredIsVacated(s, p); }
    CommittedRooms(s, t);
    CommittedLoops(s, t);
  }

  lemma TakeOverFrame(s: Sys, t: TaskId, p: Port)
    requires At(s, t)
    ensures var r := TakeOver(s, p, t);
            && At(r, t) && r.tasks[t] == s.tasks[t] && r.lock == s.lock && r.alive == s.alive && r.now == s.now
            && r.m.nodes.procs == s.m.nodes.procs && r.m.nodes.info == s.m.nodes.info
  {
  }

  lemma SameService(n: Nodes, o: Nodes, alive: set<Pid>, identity: Identity, p: Port)
    requires n.procs == o.procs && n.info == o.info
    ensures Running(n, alive, p) == Running(o, alive, p)
    ensures ServedElsewhere(n, alive, identity, p) == ServedElsewhere(o, alive, identity, p)
  {
    assert forall q :: Running(n, alive, q) == Running(o, alive, q);
  }

  lemma EnterStartKeeps(s: Sys, t: TaskId, deferred: bool)
    requires Inv(s) && s.lock.None? && At(s, t) && s.tasks[t].stage.Waiting?
    ensures Inv(EnterStart(s, t, deferred))
  {
    hide Inv; hide TakeOver; hide StartRaises; hide ServedElsewhere; hide Running; hide DischargeUnserved;
    var p := s.tasks[t].port;
    var taken := TakeOver(s, p, t);
    TakeOverKeeps(s, p, t);
    TakeOverFrame(s, t, p);
    SameService(s.m.nodes, taken.m.nodes, s.alive, s.tasks[t].stage.identity, p);
    if Running(s.m.nodes, s.alive, p) || ServedElsewhere(s.m.nodes, s.alive, s.tasks[t].stage.identity, p) {
      DischargeUnservedKeeps(taken, p, Adopts(taken.m, p));
      DischargeUnservedFrame(taken, p, Adopts(taken.m, p));
      StartRaisesKeeps(DischargeUnserved(taken, p, Adopts(taken.m, p)), t, AlreadyRunning);
    } else if deferred {
      StartRaisesKeeps(taken, t, Deferred);
    } else {
      CommittedKeeps(taken, t);
    }
  }

  lemma DischargeUnservedFrame(s: Sys, p: Port, adopted: bool)
    ensures var r := DischargeUnserved(s, p, adopted);
            r.tasks == s.tasks && r.lock == s.lock && r.m.nodes == s.m.nodes && r.alive == s.alive && r.now == s.now
                && r.audit == s.audit
  {
  }

  // ---- A process comes up ----

  function WithNode(n: Nodes, p: Port, pid: Pid, identity: Identity, w: TaskId): (r: Nodes) {
    n.(procs := n.procs[p := pid], info := n.info[p := Info(pid, identity)], watchTasks := n.watchTasks[p := w])
  }

  lemma RegisterUnique(n: Nodes, alive: set<Pid>, pid: Pid, p: Port, identity: Identity, w: TaskId)
    requires UniqueIdentities(n, alive) && !ServedElsewhere(n, alive, identity, p)
    requires forall q :: q in n.procs ==> n.procs[q] != pid
    ensures UniqueIdentities(WithNode(n, p, pid, identity, w), alive + {pid})
  {
    var m := WithNode(n, p, pid, identity, w);
    assert forall q :: q != p && Running(m, alive + {pid}, q) ==> Running(n, alive, q);
    assert forall q :: q != p && q in m.info ==> q in n.info && m.info[q] == n.info[q];
    assert p in m.info && m.info[p].identity == identity;
    hide WithNode; hide Running;
  }

  lemma RegisterNodes(n: Nodes, alive: set<Pid>, nextPid: Pid, p: Port, identity: Identity, w: TaskId)
    requires NodesOk(n, alive, nextPid) && p in n.specs && !ServedElsewhere(n, alive, identity, p)
    ensures NodesOk(WithNode(n, p, nextPid, identity, w), alive + {nextPid}, nextPid + 1)
  {
    hide UniqueIdentities; hide ServedElsewhere;
    RegisterUnique(n, alive, nextPid, p, identity, w);
  }

  lemma RegisterTasks(s: Sys, p: Port, identity: Identity, stops: bool, self: TaskId)
    requires TasksOk(s.m.nodes, s.alive, s.lock, s.tasks, s.nextTask) && s.lock.None? && self !in s.tasks
    ensures var r := Register(s, p, identity, stops, self); TasksOk(r.m.nodes, r.alive, r.lock, r.tasks, r.nextTask)
  {
    hide Running; hide ServedElsewhere;
  }

  lemma RegisterRecords(s: Sys, p: Port, info: Info)
    requires RecordsOk(s.m.withheld, s.audit.history, s.audit.accounts, s.m.attempts, s.m.nodes.info)
    ensures RecordsOk(s.m.withheld, s.audit.history, s.audit.accounts, s.m.attempts, s.m.nodes.info[p := info])
  {
    hide AccountOk;
  }

  /** A task that neither sleeps, nor restarts, nor adopts. */
  ghost predicate Inert(task: Task) {
    task.role != AutoRestart && !Adopting(task)
  }

  lemma InertKeeps(s: Sys, t: TaskId, task: Task)
    requires OwnersOk(s.tasks, s.m.withheld) && RunsOk(s.tasks, s.m.attempts, s.now) && Inert(task)
    requires RoomsOk(s.m.attempts, s.audit.orphaned, s.m.withheld, s.tasks) && CrowdsOk(s.m.attempts, s.tasks)
    ensures OwnersOk(s.tasks[t := task], s.m.withheld) && RunsOk(s.tasks[t := task], s.m.attempts, s.now)
    ensures RoomsOk(s.m.attempts, s.audit.orphaned, s.m.withheld, s.tasks[t := task])
            && CrowdsOk(s.m.attempts, s.tasks[t := task])
  {
    hide Recent;
  }

  lemma RegisterKeeps(s: Sys, p: Port, identity: Identity, stops: bool, self: TaskId)
    requires Inv(s) && s.lock.None? && self !in s.tasks
    requires p in s.m.nodes.specs && !ServedElsewhere(s.m.nodes, s.alive, identity, p)
    ensures Inv(Register(s, p, identity, stops, self))
  {
    hide EventsOk; hide NodesOk; hide TasksOk; hide RecordsOk; hide OwnersOk; hide HistoriesOk; hide RoomsOk;
    hide CrowdsOk; hide RunsOk;
    hide Running; hide ServedElsewhere; hide Shrunk; hide CancelEntry;
    RegisterNodes(s.m.nodes, s.alive, s.nextPid, p, identity, s.nextTask);
    RegisterTasks(s, p, identity, stops, self);
    RegisterRecords(s, p, Info(s.nextPid, identity));
    CancelShrinks(s.tasks, s.m.nodes.watchTasks, p, self);
    var tasks := CancelEntry(s.tasks, s.m.nodes.watchTasks, p, self);
    ShrunkKeeps(s.tasks, tasks, s);
    InertKeeps(s.(tasks := tasks), s.nextTask, Task(Watcher, p, Watching(s.nextPid), false, NO_LOOP));
  }

  // ---- Settling a withheld crash ----

  lemma SettleAdoptedRecords(s: Sys, p: Port)
    requires RecordsOk(s.m.withheld, s.audit.history, s.audit.accounts, s.m.attempts, s.m.nodes.info)
             && p in s.m.withheld
    ensures var r := SettleAdopted(s, p);
            && RecordsOk(r.m.withheld, r.audit.history, r.audit.accounts, r.m.attempts, r.m.nodes.info)
            && r.audit.accounts[s.m.withheld[p].sequence] == Account(1, 1)
  {
    hide Trim;
    var r := SettleAdopted(s, p);
    assert RecordOk(p, s.m.withheld[p], s.audit.history, s.audit.accounts, s.m.attempts, s.m.nodes.info);
    forall q | q in r.m.withheld
      ensures RecordOk(q, r.m.withheld[q], s.audit.history, r.audit.accounts, r.m.attempts, s.m.nodes.info)
    {
      assert RecordOk(q, s.m.withheld[q], s.audit.history, s.audit.accounts, s.m.attempts, s.m.nodes.info);
    }
  }

  lemma SettleAdoptedHistories(s: Sys, p: Port)
    requires HistoriesOk(s.m.attempts, s.audit.log, s.audit.orphaned, s.m.withheld, s.now) && p in s.m.withheld
    requires !s.m.withheld[p].charged ==> TimesOf(s.m.attempts, p) == []
    ensures var r := SettleAdopted(s, p); HistoriesOk(r.m.attempts, r.audit.log, r.audit.orphaned, r.m.withheld, s.now)
  {
    hide HistoryOk; hide Trim;
    var r := SettleAdopted(s, p);
    var h, log, o := TimesOf(s.m.attempts, p), TimesOf(s.audit.log, p), p in s.audit.orphaned;
    assert HistoryOk(h, log, o, true, s.now);
    if !s.m.withheld[p].charged {
      ChargedHistory(h, log, o, true, s.now);
      WithheldHistory(Trim(h, s.now) + [s.now], log + [s.now], o, true, false, s.now);
    } else {
      WithheldHistory(h, log, o, true, false, s.now);
    }
    HistoriesAt(s, r, p);
  }

  lemma SettleAdoptedFrame(s: Sys, p: Port)
    requires p in s.m.withheld && (!s.m.withheld[p].charged ==> TimesOf(s.m.attempts, p) == [])
    ensures var r := SettleAdopted(s, p);
            && r.m.withheld == s.m.withheld - {p} && r.audit.orphaned == s.audit.orphaned
            && (forall q :: q != p ==> TimesOf(r.m.attempts, q) == TimesOf(s.m.attempts, q))
            && (|TimesOf(r.m.attempts, p)| <= 1 || TimesOf(r.m.attempts, p) == TimesOf(s.m.attempts, p))
  {
    hide Trim;
  }

  lemma SettleAdoptedRooms(s: Sys, p: Port)
    requires p in s.m.withheld && (!s.m.withheld[p].charged ==> TimesOf(s.m.attempts, p) == [])
    requires RoomsOk(s.m.attempts, s.audit.orphaned, s.m.withheld, s.tasks) && CrowdsOk(s.m.attempts, s.tasks)
    ensures var r := SettleAdopted(s, p);
            RoomsOk(r.m.attempts, r.audit.orphaned, r.m.withheld, s.tasks) && CrowdsOk(r.m.attempts, s.tasks)
  {
    hide SettleAdopted; hide TimesOf;
    SettleAdoptedFrame(s, p);
    var r := SettleAdopted(s, p);
    forall t | t in s.tasks
      ensures RoomOk(s.tasks[t], TimesOf(r.m.attempts, s.tasks[t].port), s.tasks[t].port in r.audit.orphaned,
                     s.tasks[t].port in r.m.withheld)
    {
      assert RoomOk(s.tasks[t], TimesOf(s.m.attempts, s.tasks[t].port), s.tasks[t].port in s.audit.orphaned,
                    s.tasks[t].port in s.m.withheld);
    }
  }

  lemma SettleAdoptedKeeps(s: Sys, p: Port)
    requires Inv(s) && p in s.m.withheld
    ensures Inv(SettleAdopted(s, p)) && SettleAdopted(s, p).audit.accounts[s.m.withheld[p].sequence] == Account(1, 1)
  {
    hide EventsOk; hide NodesOk; hide TasksOk; hide RecordsOk; hide OwnersOk; hide HistoriesOk; hide RoomsOk;
    hide CrowdsOk; hide RunsOk; hide Trim;
    if !s.m.withheld[p].charged { UnchargedIsEmpty(s, p); }
    SettleAdoptedRecords(s, p);
    SettleAdoptedHistories(s, p);
    SettleAdoptedRooms(s, p);
    ReleaseKeepsGroups(s, p);
    TrimKeepsRuns(s, p);
  }

  ghost predicate RoomForOrphan(s: Sys, p: Port) {
    && |TimesOf(s.m.attempts, p)| <= 5
    && (forall t ::
          (t in s.tasks && s.tasks[t].port == p && s.tasks[t].role == AutoRestart && !s.tasks[t].cancelled
           && s.tasks[t].stage.Backoff?) ==>
            |TimesOf(s.m.attempts, p)| <= 4)
    && (forall t :: t in s.tasks ==> !Adopting(s.tasks[t]))
  }

  lemma OrphanHistory(h: seq<Time>, log: seq<Time>, orphaned: bool, now: Time)
    requires HistoryOk(h, log, orphaned, false, now)
    ensures HistoryOk(h, log, true, false, now)
  {
    hide Spaced; hide Ascending;
  }

  lemma ChargeOrphanHistories(s: Sys, p: Port)
    requires HistoriesOk(s.m.attempts, s.audit.log, s.audit.orphaned, s.m.withheld, s.now) && p !in s.m.withheld
    requires |TimesOf(s.m.attempts, p)| <= 5
    ensures var r := ChargeOrphan(s, p); HistoriesOk(r.m.attempts, r.audit.log, r.audit.orphaned, r.m.withheld, s.now)
  {
    hide HistoryOk; hide Trim;
    assert HistoryOk(TimesOf(s.m.attempts, p), TimesOf(s.audit.log, p), p in s.audit.orphaned, false, s.now);
    OrphanHistory(TimesOf(s.m.attempts, p), TimesOf(s.audit.log, p), p in s.audit.orphaned, s.now);
    ChargedHistory(TimesOf(s.m.attempts, p), TimesOf(s.audit.log, p), true, false, s.now);
    HistoriesAt(s, ChargeOrphan(s, p), p);
  }

  lemma ChargeOrphanRooms(s: Sys, p: Port)
    requires p !in s.m.withheld && RoomForOrphan(s, p)
    requires RecordsOk(s.m.withheld, s.audit.history, s.audit.accounts, s.m.attempts, s.m.nodes.info)
    requires RoomsOk(s.m.attempts, s.audit.orphaned, s.m.withheld, s.tasks)
    ensures var r := ChargeOrphan(s, p);
            && RecordsOk(r.m.withheld, r.audit.history, r.audit.accounts, r.m.attempts, r.m.nodes.info)
            && RoomsOk(r.m.attempts, r.audit.orphaned, r.m.withheld, s.tasks) && CrowdsOk(r.m.attempts, s.tasks)
  {
    hide Trim; hide AccountOk;
    var r := ChargeOrphan(s, p);
    assert forall q :: q != p ==> TimesOf(r.m.attempts, q) == TimesOf(s.m.attempts, q);
    assert |TimesOf(r.m.attempts, p)| <= |TimesOf(s.m.attempts, p)| + 1;
    hide TimesOf;
    forall t | t in s.tasks
      ensures RoomOk(s.tasks[t], TimesOf(r.m.attempts, s.tasks[t].port), s.tasks[t].port in r.audit.orphaned,
                     s.tasks[t].port in r.m.withheld)
    {
      assert RoomOk(s.tasks[t], TimesOf(s.m.attempts, s.tasks[t].port), s.tasks[t].port in s.audit.orphaned,
                    s.tasks[t].port in s.m.withheld);
    }
  }

  lemma ChargeOrphanKeeps(s: Sys, p: Port)
    requires Inv(s) && p !in s.m.withheld && RoomForOrphan(s, p)
    ensures Inv(ChargeOrphan(s, p))
  {
    hide EventsOk; hide NodesOk; hide TasksOk; hide RecordsOk; hide OwnersOk; hide HistoriesOk; hide RoomsOk;
    hide CrowdsOk; hide RunsOk; hide Trim;
    ChargeOrphanHistories(s, p);
    ChargeOrphanRooms(s, p);
    TrimKeepsRuns(s, p);
  }

  lemma RecordFrame(s: Sys, kind: EventKind, p: Port, pid: Option<Pid>, attempt: nat, delay: Option<nat>,
                    willRetry: bool)
    ensures var r := Record(s, kind, p, pid, attempt, delay, willRetry);
            && r.m.withheld == s.m.withheld && r.m.attempts == s.m.attempts && r.tasks == s.tasks
            && r.audit.accounts == s.audit.accounts && r.audit.orphaned == s.audit.orphaned
  {
  }

  lemma SettleKeeps(s: Sys, p: Port, pid: Pid)
    requires Inv(s) && (p !in s.m.withheld ==> RoomForOrphan(s, p))
    ensures Inv(Settle(s, p, pid))
  {
    hide Inv; hide Record; hide SettleAdopted; hide ChargeOrphan;
    RecordKeeps(s, RestartSucceeded, p, Some(pid), 1, None, false);
    RecordFrame(s, RestartSucceeded, p, Some(pid), 1, None, false);
    var recorded := Record(s, RestartSucceeded, p, Some(pid), 1, None, false);
    if p in s.m.withheld { SettleAdoptedKeeps(recorded, p); } else { ChargeOrphanKeeps(recorded, p); }
  }

  lemma SettleOwnRecords(s: Sys, p: Port, loop: Loop)
    requires RecordsOk(s.m.withheld, s.audit.history, s.audit.accounts, s.m.attempts, s.m.nodes.info)
    requires FitsRecord(s.m.withheld, p, loop, true) && loop.isFirst && p in s.m.withheld
    ensures var r := SettleOwn(s, p, loop);
            && RecordsOk(r.m.withheld, r.audit.history, r.audit.accounts, r.m.attempts, r.m.nodes.info)
            && r.audit.accounts[s.m.withheld[p].sequence] == Account(1, 1)
  {
    var r := SettleOwn(s, p, loop);
    assert RecordOk(p, s.m.withheld[p], s.audit.history, s.audit.accounts, s.m.attempts, s.m.nodes.info);
    forall q | q in r.m.withheld
      ensures RecordOk(q, r.m.withheld[q], s.audit.history, r.audit.accounts, s.m.attempts, s.m.nodes.info)
    {
      assert RecordOk(q, s.m.withheld[q], s.audit.history, s.audit.accounts, s.m.attempts, s.m.nodes.info);
    }
  }

  lemma SettleOwnKeeps(s: Sys, p: Port, loop: Loop)
    requires Inv(s) && FitsRecord(s.m.withheld, p, loop, true)
    ensures Inv(SettleOwn(s, p, loop))
  {
    hide EventsOk; hide NodesOk; hide TasksOk; hide RecordsOk; hide OwnersOk; hide HistoriesOk; hide RoomsOk;
    hide CrowdsOk; hide RunsOk;
    if loop.isFirst && p in s.m.withheld {
      SettleOwnRecords(s, p, loop);
      ReleaseKeepsGroups(s, p);
      ReleaseKeepsHistories(s, p);
    } else {
      ReleaseIfFirstKeeps(s, p, loop);
      assert SettleOwn(s, p, loop) == ReleaseIfFirst(s, p, loop);
    }
  }

  lemma RecoveredKeeps(s: Sys, p: Port, pid: Pid, loop: Loop)
    requires Inv(s) && FitsRecord(s.m.withheld, p, loop, true)
    ensures Inv(Recovered(s, p, pid, loop))
  {
    hide Inv; hide SettleOwn; hide Record;
    var cleared := s.(m := s.m.(backoff := s.m.backoff - {p}));
    BackoffTableKeeps(s, s.m.backoff - {p});
    SettleOwnKeeps(cleared, p, loop);
    RecordKeeps(SettleOwn(cleared, p, loop), RestartSucceeded, p, Some(pid), loop.attempt, Some(NextDelay(s.m, p)),
                false);
  }
}
