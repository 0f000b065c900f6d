/** The invariant holds in every reachable state of the process manager. */
module ManagerSafety {
  import opened Options
  import opened ManagerState
  import opened ManagerSteps
  import opened ManagerInvariant
  import opened ManagerOperations
  import opened ManagerTransitions

  // ---- A spawn completes ----

  /** What the invariant says about the start that holds the lock. */
  lemma SpawnerKnows(s: Sys, t: TaskId)
    requires Inv(s) && At(s, t) && s.tasks[t].stage.Spawning?
    ensures s.lock == Some(t) && s.tasks[t].port in s.m.nodes.specs
    ensures !ServedElsewhere(s.m.nodes, s.alive, s.tasks[t].stage.identity, s.tasks[t].port)
    ensures s.tasks[t].role == AutoRestart ==>
              !s.tasks[t].stage.adopted && FitsRecord(s.m.withheld, s.tasks[t].port, s.tasks[t].loop, true)
    ensures s.tasks[t].role in {AutoRestart, StartCall}
  {
    hide EventsOk; hide NodesOk; hide RecordsOk; hide AttemptsOk; hide RunsOk; hide Running; hide ServedElsewhere;
    assert TaskOk(s.m.nodes, s.alive, s.lock, t, s.tasks[t]);
    assert OwnerOk(s.tasks[t], s.m.withheld);
  }

  lemma AdopterRoom(s: Sys, t: TaskId)
    requires Inv(s) && At(s, t) && s.tasks[t].stage.Spawning? && s.tasks[t].stage.adopted
    ensures RoomForOrphan(Leave(s, t), s.tasks[t].port)
  {
    hide EventsOk; hide NodesOk; hide RecordsOk; hide OwnersOk; hide HistoriesOk; hide RunsOk; hide Running;
    hide ServedElsewhere;
    assert TaskOk(s.m.nodes, s.alive, s.lock, t, s.tasks[t]);
    assert forall u :: u in s.tasks && s.tasks[u].stage.Spawning? ==> TaskOk(s.m.nodes, s.alive, s.lock, u, s.tasks[u]);
  }

  lemma RegisterFrame(s: Sys, p: Port, identity: Identity, stops: bool, self: TaskId)
    ensures var r := Register(s, p, identity, stops, self);
            && r.m.withheld == s.m.withheld && r.m.attempts == s.m.attempts && r.audit == s.audit && r.now == s.now
            && r.m.lastSequence == s.m.lastSequence && r.m.ring == s.m.ring
            && (RoomForOrphan(s, p) ==> RoomForOrphan(r, p))
  {
  }

  lemma RespawnedKeeps(s: Sys, t: TaskId)
    requires Inv(s) && At(s, t) && s.tasks[t].stage.Spawning?
    ensures Inv(Respawned(s, t))
  {
    hide Inv; hide Register; hide Settle; hide Recovered; hide RoomForOrphan; hide ServedElsewhere; hide FitsRecord;
    var task := s.tasks[t];
    var p := task.port;
    SpawnerKnows(s, t);
    LeaveKeeps(s, t);
    RegisterKeeps(Leave(s, t), p, task.stage.identity, task.stage.stops, t);
    RegisterFrame(Leave(s, t), p, task.stage.identity, task.stage.stops, t);
    var up := Register(Leave(s, t), p, task.stage.identity, task.stage.stops, t);
    if task.stage.adopted {
      AdopterRoom(s, t);
      SettleKeeps(up, p, s.nextPid);
    } else if task.role == AutoRestart {
      RecoveredKeeps(up, p, s.nextPid, task.loop);
    }
  }

  // ---- Watchers and new calls ----

  lemma NewTaskKeepsTasks(s: Sys, task: Task)
    requires TasksOk(s.m.nodes, s.alive, s.lock, s.tasks, s.nextTask)
    requires task == Task(StartCall, task.port, Resolving, false, NO_LOOP)
             || task == Task(StopCall, task.port, StopWaiting, false, NO_LOOP)
    ensures TasksOk(s.m.nodes, s.alive, s.lock, s.tasks[s.nextTask := task], s.nextTask + 1)
  {
    hide Running; hide ServedElsewhere;
  }

  lemma NewCallKeeps(s: Sys, task: Task)
    requires Inv(s)
    requires task == Task(StartCall, task.port, Resolving, false, NO_LOOP)
             || task == Task(StopCall, task.port, StopWaiting, false, NO_LOOP)
    ensures Inv(Spawn(s, task))
  {
    hide EventsOk; hide NodesOk; hide TasksOk; hide RecordsOk; hide OwnersOk; hide HistoriesOk; hide RoomsOk;
    hide CrowdsOk; hide RunsOk;
    NewTaskKeepsTasks(s, task);
    InertKeeps(s, s.nextTask, task);
  }

  /** The watcher hands its port to a fresh auto-restart task. */
  function Handover(s: Sys, p: Port): (r: Sys) {
    Spawn(s.(m := s.m.(nodes := s.m.nodes.(restartTasks := s.m.nodes.restartTasks[p := s.nextTask]))),
          Task(AutoRestart, p, Created, false, NO_LOOP))
  }

  lemma HandoverTasks(s: Sys, p: Port)
    requires TasksOk(s.m.nodes, s.alive, s.lock, s.tasks, s.nextTask) && p in s.m.nodes.info
    requires p in s.m.nodes.restartTasks ==> s.m.nodes.restartTasks[p] !in s.tasks
    ensures var r := Handover(s, p); TasksOk(r.m.nodes, r.alive, r.lock, r.tasks, r.nextTask)
  {
    SameProcs(s.m.nodes, Handover(s, p).m.nodes, s.alive);
    hide Running; hide ServedElsewhere;
    var r := Handover(s, p);
    forall t | t in r.tasks ensures t < r.nextTask && TaskOk(r.m.nodes, r.alive, r.lock, t, r.tasks[t]) {
      if t != s.nextTask { assert TaskOk(s.m.nodes, s.alive, s.lock, t, s.tasks[t]); }
    }
  }

  lemma SameProcs(n: Nodes, o: Nodes, alive: set<Pid>)
    requires n.procs == o.procs && n.info == o.info
    ensures forall p :: Running(n, alive, p) == Running(o, alive, p)
    ensures forall p, identity :: ServedElsewhere(n, alive, identity, p) == ServedElsewhere(o, alive, identity, p)
  {
    forall p, identity ensures ServedElsewhere(n, alive, identity, p) == ServedElsewhere(o, alive, identity, p) {
      SameService(n, o, alive, identity, p);
    }
  }

  lemma SameProcsNodes(n: Nodes, o: Nodes, alive: set<Pid>, nextPid: Pid)
    requires n.procs == o.procs && n.info == o.info && n.specs.Keys <= o.specs.Keys && NodesOk(n, alive, nextPid)
    ensures NodesOk(o, alive, nextPid)
  {
    SameProcs(n, o, alive);
    hide Running; hide ServedElsewhere;
  }

  lemma HandoverOwnership(s: Sys, p: Port)
    requires OwnersOk(s.tasks, s.m.withheld) && RunsOk(s.tasks, s.m.attempts, s.now)
    requires RoomsOk(s.m.attempts, s.audit.orphaned, s.m.withheld, s.tasks) && CrowdsOk(s.m.attempts, s.tasks)
    ensures var tasks := Handover(s, p).tasks;
            && OwnersOk(tasks, s.m.withheld) && RunsOk(tasks, s.m.attempts, s.now)
            && RoomsOk(s.m.attempts, s.audit.orphaned, s.m.withheld, tasks) && CrowdsOk(s.m.attempts, tasks)
  {
    hide Recent;
  }

  lemma HandoverKeeps(s: Sys, p: Port)
    requires Inv(s) && p in s.m.nodes.info && (p in s.m.nodes.restartTasks ==> s.m.nodes.restartTasks[p] !in s.tasks)
    ensures Inv(Handover(s, p))
  {
    hide EventsOk; hide NodesOk; hide TasksOk; hide RecordsOk; hide OwnersOk; hide HistoriesOk; hide RoomsOk;
    hide CrowdsOk; hide RunsOk;
    HandoverTasks(s, p);
    SameProcsNodes(s.m.nodes, Handover(s, p).m.nodes, s.alive, s.nextPid);
    HandoverOwnership(s, p);
  }

  lemma WatchedKeeps(s: Sys, t: TaskId)
    requires Inv(s) && At(s, t) && s.tasks[t].stage.Watching?
    ensures Inv(Watched(s, t))
  {
    hide EventsOk; hide UniqueIdentities; hide TasksOk; hide RecordsOk; hide OwnersOk; hide AttemptsOk; hide RunsOk;
    LeaveKeeps(s, t);
    var p := s.tasks[t].port;
    var done := Leave(s, t);
    if !(p !in s.m.nodes.procs || s.m.nodes.procs[p] != s.tasks[t].stage.pid || p in s.m.intentionalStop)
       && !(p in s.m.nodes.restartTasks && s.m.nodes.restartTasks[p] in s.tasks) {
      HandoverKeeps(done, p);
      assert Watched(s, t) == Handover(done, p);
    }
  }

  // ---- Stopping ----

  lemma StoppingTasks(s: Sys, t: TaskId, victim: Option<Pid>)
    requires TasksOk(s.m.nodes, s.alive, s.lock, s.tasks, s.nextTask) && s.lock.None? && t in s.tasks
             && s.tasks[t].role == StopCall
    ensures TasksOk(s.m.nodes, s.alive, Some(t), s.tasks[t := s.tasks[t].(stage := Stopping(victim))], s.nextTask)
  {
    hide Running; hide ServedElsewhere;
  }

  lemma StoppingKeeps(s: Sys, t: TaskId, victim: Option<Pid>, intentional: set<Port>)
    requires Inv(s) && s.lock.None? && t in s.tasks && s.tasks[t].role == StopCall
    ensures Inv(SetTask(s.(m := s.m.(intentionalStop := intentional), lock := Some(t)), t,
                        s.tasks[t].(stage := Stopping(victim))))
  {
    hide EventsOk; hide NodesOk; hide TasksOk; hide RecordsOk; hide OwnersOk; hide HistoriesOk; hide RoomsOk;
    hide CrowdsOk; hide RunsOk;
    StoppingTasks(s, t, victim);
    InertKeeps(s, t, s.tasks[t].(stage := Stopping(victim)));
  }

  lemma RoleOf(s: Sys, t: TaskId)
    requires Inv(s) && t in s.tasks
    ensures StageFits(s.tasks[t])
  {
    hide EventsOk; hide NodesOk; hide RecordsOk; hide OwnersOk; hide AttemptsOk; hide RunsOk; hide Running;
    hide ServedElsewhere;
    assert TaskOk(s.m.nodes, s.alive, s.lock, t, s.tasks[t]);
  }

  lemma ForgetCaller(s: Sys, p: Port, t: TaskId)
    requires TasksOk(s.m.nodes, s.alive, s.lock, s.tasks, s.nextTask) && t in s.tasks && s.tasks[t].role == StopCall
    ensures t in Forget(s, p, t).tasks && Forget(s, p, t).tasks[t] == s.tasks[t] && Forget(s, p, t).lock == s.lock
    ensures Forget(s, p, t).m.intentionalStop == s.m.intentionalStop
  {
  }

  lemma StopBeginsKeeps(s: Sys, t: TaskId)
    requires Inv(s) && s.lock.None? && At(s, t) && s.tasks[t].stage.StopWaiting?
    ensures Inv(StopBegins(s, t))
  {
    hide EventsOk; hide NodesOk; hide TasksOk; hide RecordsOk; hide OwnersOk; hide AttemptsOk; hide RunsOk; hide Forget;
    var p := s.tasks[t].port;
    RoleOf(s, t);
    ForgetKeeps(s, p, t);
    ForgetCaller(s, p, t);
    StoppingKeeps(Forget(s, p, t), t, if p in s.m.nodes.procs then Some(s.m.nodes.procs[p])
                  else None, s.m.intentionalStop + {p});
  }

  lemma FewerAlive(n: Nodes, alive: set<Pid>, fewer: set<Pid>)
    requires fewer <= alive
    ensures forall p :: Running(n, fewer, p) ==> Running(n, alive, p)
    ensures forall p, identity :: ServedElsewhere(n, fewer, identity, p) ==> ServedElsewhere(n, alive, identity, p)
  {
  }

  lemma ExitsKeep(s: Sys, fewer: set<Pid>)
    requires Inv(s) && fewer <= s.alive
    ensures Inv(s.(alive := fewer))
  {
    FewerAlive(s.m.nodes, s.alive, fewer);
    hide EventsOk; hide RecordsOk; hide OwnersOk; hide AttemptsOk; hide RunsOk; hide Running; hide ServedElsewhere;
    hide EntryOk;
  }

  lemma FlagsKeep(s: Sys, stopPending: set<Port>, intentional: set<Port>)
    requires Inv(s)
    ensures Inv(s.(m := s.m.(stopPending := stopPending, intentionalStop := intentional)))
  {
    hide EventsOk; hide NodesOk; hide TasksOk; hide RecordsOk; hide OwnersOk; hide AttemptsOk; hide RunsOk;
  }

  lemma StopEndsKeeps(s: Sys, t: TaskId)
    requires Inv(s) && t in s.tasks && s.tasks[t].stage.Stopping?
    ensures Inv(StopEnds(s, t))
  {
    hide Inv;
    var victim := s.tasks[t].stage.victim;
    var fewer := if victim.Some? then s.alive - {victim.value} else s.alive;
    ExitsKeep(s, fewer);
    FlagsKeep(s.(alive := fewer), s.m.stopPending, s.m.intentionalStop - {s.tasks[t].port});
    var cleared := s.(alive := fewer).(m := s.m.(stopPending := s.m.stopPending,
                                                 intentionalStop := s.m.intentionalStop - {s.tasks[t].port}));
    LeaveKeeps(cleared, t);
    assert StopEnds(s, t) == Leave(cleared, t);
  }

  // ---- The rest ----

  lemma TickKeeps(s: Sys, elapsed: Time)
    requires Inv(s) && elapsed >= 0.0
    ensures Inv(s.(now := s.now + elapsed))
  {
    hide NodesOk; hide TasksOk; hide RecordsOk; hide OwnersOk; hide HistoriesOk; hide RoomsOk; hide CrowdsOk;
    hide RunsOk; hide Newest;
    ChronicleLater(s.audit.history, s.now, s.now + elapsed);
    LaterHistories(s, elapsed);
    LaterRuns(s, elapsed);
  }

  lemma ChronicleLater(h: seq<Event>, now: Time, later: Time)
    requires Chronicle(h, now) && now <= later
    ensures Chronicle(h, later)
  {
  }

  lemma LaterHistory(h: seq<Time>, log: seq<Time>, orphaned: bool, withheld: bool, now: Time, later: Time)
    requires HistoryOk(h, log, orphaned, withheld, now) && now <= later
    ensures HistoryOk(h, log, orphaned, withheld, later)
  {
    hide Spaced;
  }

  lemma LaterHistories(s: Sys, elapsed: Time)
    requires HistoriesOk(s.m.attempts, s.audit.log, s.audit.orphaned, s.m.withheld, s.now) && elapsed >= 0.0
    ensures HistoriesOk(s.m.attempts, s.audit.log, s.audit.orphaned, s.m.withheld, s.now + elapsed)
  {
    hide HistoryOk; hide TimesOf;
    forall p
      ensures HistoryOk(TimesOf(s.m.attempts, p), TimesOf(s.audit.log, p), p in s.audit.orphaned, p in s.m.withheld,
                        s.now + elapsed) {
      LaterHistory(TimesOf(s.m.attempts, p), TimesOf(s.audit.log, p), p in s.audit.orphaned, p in s.m.withheld, s.now,
                   s.now + elapsed);
    }
  }

  lemma LaterRuns(s: Sys, elapsed: Time)
    requires RunsOk(s.tasks, s.m.attempts, s.now) && elapsed >= 0.0
    ensures RunsOk(s.tasks, s.m.attempts, s.now + elapsed)
  {
    hide Recent;
  }

  lemma SameSize(s: Sys, nodes: Nodes)
    requires Inv(s) && nodes.procs == s.m.nodes.procs && nodes.info == s.m.nodes.info
             && s.m.nodes.specs.Keys <= nodes.specs.Keys
    requires TasksOk(nodes, s.alive, s.lock, s.tasks, s.nextTask)
    ensures Inv(s.(m := s.m.(nodes := nodes)))
  {
    SameProcsNodes(s.m.nodes, nodes, s.alive, s.nextPid);
    hide EventsOk; hide NodesOk; hide TasksOk; hide RecordsOk; hide OwnersOk; hide AttemptsOk; hide RunsOk;
  }

  lemma ClearedTasks(s: Sys, nodes: Nodes)
    requires TasksOk(s.m.nodes, s.alive, s.lock, s.tasks, s.nextTask)
    requires nodes.procs == s.m.nodes.procs && nodes.info == s.m.nodes.info && s.m.nodes.specs.Keys <= nodes.specs.Keys
    requires forall p :: p in nodes.restartTasks ==>
               p in s.m.nodes.restartTasks && nodes.restartTasks[p] == s.m.nodes.restartTasks[p]
    requires forall p :: p in s.m.nodes.restartTasks && p !in nodes.restartTasks ==>
               s.m.nodes.restartTasks[p] !in s.tasks
    requires forall p :: p in nodes.watchTasks ==>
               p in s.m.nodes.watchTasks && nodes.watchTasks[p] == s.m.nodes.watchTasks[p]
    ensures TasksOk(nodes, s.alive, s.lock, s.tasks, s.nextTask)
  {
    SameProcs(s.m.nodes, nodes, s.alive);
    hide Running; hide ServedElsewhere;
    forall t | t in s.tasks ensures TaskOk(nodes, s.alive, s.lock, t, s.tasks[t]) {
      assert TaskOk(s.m.nodes, s.alive, s.lock, t, s.tasks[t]);
    }
  }

  /** Clearing finished entries or rewriting a spec leaves everything else alone. */
  lemma ClearedKeeps(s: Sys, nodes: Nodes)
    requires Inv(s) && nodes.procs == s.m.nodes.procs && nodes.info == s.m.nodes.info
             && s.m.nodes.specs.Keys <= nodes.specs.Keys
    requires forall p :: p in nodes.restartTasks ==>
               p in s.m.nodes.restartTasks && nodes.restartTasks[p] == s.m.nodes.restartTasks[p]
    requires forall p :: p in s.m.nodes.restartTasks && p !in nodes.restartTasks ==>
               s.m.nodes.restartTasks[p] !in s.tasks
    requires forall p :: p in nodes.watchTasks ==>
               p in s.m.nodes.watchTasks && nodes.watchTasks[p] == s.m.nodes.watchTasks[p]
    ensures Inv(s.(m := s.m.(nodes := nodes)))
  {
    ClearedTasks(s, nodes);
    SameSize(s, nodes);
  }

  lemma ReconfigureKeeps(s: Sys, p: Port, stops: bool)
    requires Inv(s)
    ensures Inv(Reconfigure(s, p, stops))
  {
    hide Inv;
    var specs := s.m.nodes.specs;
    var nodes := s.m.nodes.(specs := if p in specs then specs[p := specs[p].(stopPending := stops)] else specs);
    ClearedKeeps(s, nodes);
    var pending := if stops then s.m.stopPending + {p} else s.m.stopPending - {p};
    FlagsKeep(s.(m := s.m.(nodes := nodes)), pending, s.m.intentionalStop);
    assert Reconfigure(s, p, stops) ==
           s.(m := s.m.(nodes := nodes)).(m := s.m.(nodes := nodes).(stopPending := pending,
                                                                     intentionalStop := s.m.intentionalStop));
  }

  lemma FlagTasks(s: Sys, t: TaskId)
    requires TasksOk(s.m.nodes, s.alive, s.lock, s.tasks, s.nextTask) && t in s.tasks
             && s.tasks[t].role in {StartCall, StopCall}
    ensures TasksOk(s.m.nodes, s.alive, s.lock, CancelFlag(s.tasks, t), s.nextTask)
  {
    hide Running; hide ServedElsewhere;
  }

  lemma FlagKeeps(s: Sys, t: TaskId)
    requires Inv(s) && t in s.tasks && s.tasks[t].role in {StartCall, StopCall}
    ensures Inv(s.(tasks := CancelFlag(s.tasks, t)))
  {
    hide EventsOk; hide NodesOk; hide TasksOk; hide RecordsOk; hide OwnersOk; hide AttemptsOk; hide RunsOk;
    FlagTasks(s, t);
    ShrunkKeeps(s.tasks, CancelFlag(s.tasks, t), s);
  }

  lemma HooksDoneTasks(s: Sys, t: TaskId, identity: Identity, stops: bool)
    requires TasksOk(s.m.nodes, s.alive, s.lock, s.tasks, s.nextTask) && At(s, t) && s.tasks[t].stage.Resolving?
    ensures TasksOk(s.m.nodes, s.alive, s.lock, s.tasks[t := s.tasks[t].(stage := Waiting(identity, stops))],
                    s.nextTask)
  {
    hide Running; hide ServedElsewhere;
  }

  lemma HooksDoneRooms(s: Sys, t: TaskId, identity: Identity, stops: bool)
    requires OwnersOk(s.tasks, s.m.withheld) && RunsOk(s.tasks, s.m.attempts, s.now) && At(s, t)
             && s.tasks[t].stage.Resolving?
    requires RoomsOk(s.m.attempts, s.audit.orphaned, s.m.withheld, s.tasks) && CrowdsOk(s.m.attempts, s.tasks)
    ensures var tasks := s.tasks[t := s.tasks[t].(stage := Waiting(identity, stops))];
            && OwnersOk(tasks, s.m.withheld) && RunsOk(tasks, s.m.attempts, s.now)
            && RoomsOk(s.m.attempts, s.audit.orphaned, s.m.withheld, tasks) && CrowdsOk(s.m.attempts, tasks)
  {
    hide Recent;
  }

  lemma HooksDoneKeeps(s: Sys, t: TaskId, identity: Identity, stops: bool)
    requires Inv(s) && At(s, t) && s.tasks[t].stage.Resolving?
    ensures Inv(SetTask(s, t, s.tasks[t].(stage := Waiting(identity, stops))))
  {
    hide EventsOk; hide NodesOk; hide TasksOk; hide RecordsOk; hide OwnersOk; hide HistoriesOk; hide RoomsOk;
    hide CrowdsOk; hide RunsOk;
    HooksDoneTasks(s, t, identity, stops);
    HooksDoneRooms(s, t, identity, stops);
  }

  lemma SweepTasks(s: Sys)
    requires TasksOk(s.m.nodes, s.alive, s.lock, s.tasks, s.nextTask)
    ensures var r := Sweep(s); TasksOk(r.m.nodes, r.alive, r.lock, r.tasks, r.nextTask) && Shrunk(s.tasks, r.tasks)
  {
    SameProcs(s.m.nodes, Sweep(s).m.nodes, s.alive);
    hide Running; hide ServedElsewhere;
    var r := Sweep(s);
    forall t | t in r.tasks ensures TaskOk(r.m.nodes, r.alive, r.lock, t, r.tasks[t]) {
      assert TaskOk(s.m.nodes, s.alive, s.lock, t, s.tasks[t]);
    }
  }

  lemma SweepWithholds(s: Sys, tasks: map<TaskId, Task>)
    requires RecordsOk(s.m.withheld, s.audit.history, s.audit.accounts, s.m.attempts, s.m.nodes.info)
    requires OwnersOk(tasks, s.m.withheld) && RoomsOk(s.m.attempts, s.audit.orphaned, s.m.withheld, tasks)
    ensures RecordsOk(map[], s.audit.history, s.audit.accounts, s.m.attempts, s.m.nodes.info)
    ensures OwnersOk(tasks, map[]) && RoomsOk(s.m.attempts, s.audit.orphaned, map[], tasks)
  {
  }

  lemma SweepHistories(s: Sys)
    requires HistoriesOk(s.m.attempts, s.audit.log, s.audit.orphaned, s.m.withheld, s.now)
    ensures HistoriesOk(s.m.attempts, s.audit.log, s.audit.orphaned, map[], s.now)
  {
    hide HistoryOk; hide TimesOf;
    var none: map<Port, Withheld> := map[];
    forall p
      ensures HistoryOk(TimesOf(s.m.attempts, p), TimesOf(s.audit.log, p), p in s.audit.orphaned, p in none, s.now) {
      WithheldHistory(TimesOf(s.m.attempts, p), TimesOf(s.audit.log, p), p in s.audit.orphaned, p in s.m.withheld,
                      false, s.now);
    }
  }

  lemma SweepKeeps(s: Sys)
    requires Inv(s)
    ensures Inv(Sweep(s))
  {
    hide EventsOk; hide NodesOk; hide TasksOk; hide RecordsOk; hide OwnersOk; hide HistoriesOk; hide RoomsOk;
    hide CrowdsOk; hide RunsOk; hide Shrunk;
    var r := Sweep(s);
    SweepTasks(s);
    SameProcsNodes(s.m.nodes, r.m.nodes, s.alive, s.nextPid);
    ShrunkKeeps(s.tasks, r.tasks, s);
    SweepWithholds(s, r.tasks);
    SweepHistories(s);
  }

  lemma BeginsKeeps(s: Sys, t: TaskId)
    requires Inv(s) && At(s, t) && s.tasks[t].stage.Created?
    ensures Inv(LoopHead(s, t, s.tasks[t].port, FirstIteration(s.now)))
  {
    hide Inv; hide LoopHead;
    RoleOf(s, t);
    LoopHeadKeeps(s, t, s.tasks[t].port, FirstIteration(s.now));
  }

  lemma SpawnFailsKeeps(s: Sys, t: TaskId, f: Failure)
    requires Inv(s) && At(s, t) && s.tasks[t].stage.Spawning?
    ensures Inv(StartRaises(DischargeUnserved(s, s.tasks[t].port, s.tasks[t].stage.adopted), t, f))
  {
    hide Inv; hide DischargeUnserved; hide StartRaises; hide ServedElsewhere;
    SpawnerKnows(s, t);
    DischargeUnservedKeeps(s, s.tasks[t].port, s.tasks[t].stage.adopted);
    DischargeUnservedFrame(s, s.tasks[t].port, s.tasks[t].stage.adopted);
    StartRaisesKeeps(DischargeUnserved(s, s.tasks[t].port, s.tasks[t].stage.adopted), t, f);
  }

  lemma StepKeepsInv(s: Sys, a: Action)
    requires Inv(s) && Enabled(s, a)
    ensures Inv(Apply(s, a))
  {
    hide Inv; hide Watched; hide Cancelled; hide LoopHead; hide Wake; hide StartRaises; hide EnterStart; hide Respawned;
    hide StopBegins;
    hide StopEnds; hide Reconfigure; hide Sweep; hide DischargeUnserved; hide Spawn; hide SetTask; hide CancelFlag;
    hide Running; hide FirstIteration;
    match a
    case Tick(elapsed) => TickKeeps(s, elapsed);
    case ProcessExits(pid) => ExitsKeep(s, s.alive - {pid});
    case WatcherFires(t) => WatchedKeeps(s, t);
    case CancelDelivered(t) => CancelledKeeps(s, t);
    case CallCancelled(t) => FlagKeeps(s, t);
    case RestartEntryCleared(p) => ClearedKeeps(s, s.m.nodes.(restartTasks := s.m.nodes.restartTasks - {p}));
    case WatchEntryCleared(p) => ClearedKeeps(s, s.m.nodes.(watchTasks := s.m.nodes.watchTasks - {p}));
    case RestartBegins(t) => BeginsKeeps(s, t);
    case BackoffEnds(t) => WakeKeeps(s, t);
    case StartCalled(p) => NewCallKeeps(s, Task(StartCall, p, Resolving, false, NO_LOOP));
    case HooksDone(t, identity, stops) => HooksDoneKeeps(s, t, identity, stops);
    case HooksFail(t, f) => StartRaisesKeeps(s, t, f);
    case LockTaken(t, deferred) => EnterStartKeeps(s, t, deferred);
    case SpawnFails(t, f) => SpawnFailsKeeps(s, t, f);
    case SpawnSucceeds(t) => RespawnedKeeps(s, t);
    case StopCalled(p) => NewCallKeeps(s, Task(StopCall, p, StopWaiting, false, NO_LOOP));
    case StopLocked(t) => StopBeginsKeeps(s, t);
    case StopDone(t) => StopEndsKeeps(s, t);
    case Reconfigured(p, stops) => ReconfigureKeeps(s, p, stops);
    case ShutdownSweep => SweepKeeps(s);
  }

  lemma {:induction false} RunKeepsInv(s: Sys, actions: seq<Action>, r: Sys)
    requires Inv(s) && IsRun(s, actions, r)
    ensures Inv(r)
    decreases |actions|
  {
    hide Inv; hide Apply; hide Enabled;
    if actions != [] {
      StepKeepsInv(s, actions[0]);
      RunKeepsInv(Apply(s, actions[0]), actions[1..], r);
    }
  }

  lemma ReachableInv(s: Sys)
    requires Reachable(s)
    ensures Inv(s)
  {
    InitialInv();
    hide Inv;
    var actions :| IsRun(INITIAL, actions, s);
    RunKeepsInv(INITIAL, actions, s);
  }
}
