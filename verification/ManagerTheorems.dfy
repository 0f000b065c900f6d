/** What holds in every reachable state and at every step of the process manager. */
module ManagerTheorems {
  import opened Options
  import opened ManagerState
  import opened ManagerSteps
  import opened ManagerInvariant
  import opened ManagerOperations
  import opened ManagerTransitions
  import opened ManagerSafety
  import opened ManagerPublication

  // ---- A respawn settles its withheld crash exactly once ----

  /** The start that is about to complete belongs to the withheld crash: it adopted it, or its task armed it. */
  predicate Answers(task: Task) {
    Adopting(task) || (task.role == AutoRestart && task.loop.isFirst)
  }

  predicate Resolves(e: Event, p: Port, pid: Pid) {
    e.kind == RestartSucceeded && e.port == p && e.pid == Some(pid)
  }

  /**
   From `s` to `r` exactly one event is recorded, the resolving event of `p`; the record
   `p` withheld is lifted; and by then it has been charged once and settled once in all.
   */
  ghost predicate SettledOnce(s: Sys, r: Sys, p: Port, pid: Pid)
    requires p in s.m.withheld
  {
    var w := s.m.withheld[p];
    && w.sequence in s.audit.accounts && s.audit.accounts[w.sequence] == Account(if w.charged then 1 else 0, 0)
    && |r.audit.history| == |s.audit.history| + 1 && s.audit.history <= r.audit.history
    && Resolves(r.audit.history[|s.audit.history|], p, pid)
    && p !in r.m.withheld
    && w.sequence in r.audit.accounts && r.audit.accounts[w.sequence] == Account(1, 1)
    && TimesOf(r.audit.log, p) == TimesOf(s.audit.log, p) + (if w.charged then [] else [s.now])
  }

  lemma RecordBefore(s: Sys, p: Port)
    requires Inv(s) && p in s.m.withheld
    ensures var q := s.m.withheld[p].sequence;
            q in s.audit.accounts && s.audit.accounts[q] == Account(if s.m.withheld[p].charged then 1 else 0, 0)
  {
    hide EventsOk; hide NodesOk; hide TasksOk; hide OwnersOk; hide AttemptsOk; hide RunsOk; hide AccountOk;
    assert RecordOk(p, s.m.withheld[p], s.audit.history, s.audit.accounts, s.m.attempts, s.m.nodes.info);
  }

  lemma SettleEffect(s: Sys, p: Port, pid: Pid)
    requires Inv(s) && p in s.m.withheld
    ensures SettledOnce(s, Settle(s, p, pid), p, pid)
  {
    hide Inv; hide Trim; hide Newest;
    RecordBefore(s, p);
    RecordKeeps(s, RestartSucceeded, p, Some(pid), 1, None, false);
    SettleAdoptedKeeps(Record(s, RestartSucceeded, p, Some(pid), 1, None, false), p);
  }

  lemma RecoveredEffect(s: Sys, p: Port, pid: Pid, loop: Loop)
    requires Inv(s) && p in s.m.withheld && loop.isFirst && FitsRecord(s.m.withheld, p, loop, true)
    ensures SettledOnce(s, Recovered(s, p, pid, loop), p, pid)
  {
    hide RecordsOk; hide EventsOk; hide NodesOk; hide TasksOk; hide OwnersOk; hide AttemptsOk; hide RunsOk; hide Newest;
    RecordBefore(s, p);
    SettleOwnRecords(s.(m := s.m.(backoff := s.m.backoff - {p})), p, loop);
  }

  lemma RespawnedEffect(s: Sys, t: TaskId)
    requires Inv(s) && At(s, t) && s.tasks[t].stage.Spawning? && Answers(s.tasks[t]) && s.tasks[t].port in s.m.withheld
    ensures SettledOnce(s, Respawned(s, t), s.tasks[t].port, s.nextPid)
    ensures s.tasks[t].role == AutoRestart ==> s.m.withheld[s.tasks[t].port].charged
  {
    hide Inv; hide Register; hide Settle; hide Recovered; hide ServedElsewhere;
    var task := s.tasks[t];
    var p := task.port;
    SpawnerKnows(s, t);
    LeaveKeeps(s, t);
    RegisterKeeps(Leave(s, t), p, task.stage.identity, task.stage.stops, t);
    RegisterFrame(Leave(s, t), p, task.stage.identity, task.stage.stops, t);
    var up := Register(Leave(s, t), p, task.stage.identity, task.stage.stops, t);
    if task.stage.adopted {
      SettleEffect(up, p, s.nextPid);
    } else {
      RecoveredEffect(up, p, s.nextPid, task.loop);
    }
  }

  /**
   Whenever the task that armed a withhold, or a start that adopted it, brings the port
   back up: one resolving event is recorded, the withhold is lifted, and over its whole
   life the withheld attempt has been charged once and settled once.
   */
  lemma RespawnSettlesOnce(s: Sys, t: TaskId)
    requires Reachable(s) && Enabled(s, SpawnSucceeds(t)) && Answers(s.tasks[t]) && s.tasks[t].port in s.m.withheld
    ensures SettledOnce(s, Apply(s, SpawnSucceeds(t)), s.tasks[t].port, s.nextPid)
    ensures s.tasks[t].role == AutoRestart ==> s.m.withheld[s.tasks[t].port].charged
  {
    hide Inv; hide Respawned; hide SettledOnce; hide Reachable;
    ReachableInv(s);
    RespawnedEffect(s, t);
  }

  /** Recording the success before lifting the withhold, as the code does within the one step, comes to the same. */
  lemma LiftedAfterRecording(s: Sys, p: Port, pid: Pid, loop: Loop)
    ensures var up := s.(m := s.m.(backoff := s.m.backoff - {p}));
            Recovered(s, p, pid, loop) ==
            SettleOwn(Record(up, RestartSucceeded, p, Some(pid), loop.attempt, Some(NextDelay(s.m, p)), false), p, loop)
  {
    hide Newest; hide NextDelay;
  }

  /** No withheld crash is ever charged or settled twice, and none is settled without being charged. */
  lemma NeverChargedOrSettledTwice(s: Sys, q: nat)
    requires Reachable(s) && q in s.audit.accounts
    ensures AccountOk(s.audit.accounts[q])
  {
    ReachableInv(s);
    hide EventsOk; hide NodesOk; hide TasksOk; hide OwnersOk; hide AttemptsOk; hide RunsOk; hide RecordOk;
    hide AccountOk;
  }

  /** A start adopts only an unowned record armed at most 300 s ago. */
  lemma AdoptionIsTimely(s: Sys, t: TaskId, deferred: bool)
    requires Reachable(s) && Enabled(s, LockTaken(t, deferred))
    requires t in Apply(s, LockTaken(t, deferred)).tasks && Adopting(Apply(s, LockTaken(t, deferred)).tasks[t])
    ensures var p := s.tasks[t].port;
            && s.tasks[t].role == StartCall
            && p in s.m.withheld && s.now - s.m.withheld[p].armedAt <= WITHHOLD_OWNERSHIP_MAX_SEC
            && Vacated(Apply(s, LockTaken(t, deferred)).tasks, p)
  {
    ReachableInv(s);
    EnterStartKeeps(s, t, deferred);
    var r := EnterStart(s, t, deferred);
    AdoptionCommits(s, t, deferred);
    var p := s.tasks[t].port;
    assert p !in r.m.nodes.restartTasks;
    UnregisteredIsVacated(r, p) by {
      hide NodesOk; hide OwnersOk; hide AttemptsOk; hide RunsOk; hide RecordsOk; hide EventsOk; hide TasksOk;
    }
    SpawnerKnows(r, t);
    hide Inv; hide EnterStart;
  }

  lemma AdoptionCommits(s: Sys, t: TaskId, deferred: bool)
    requires At(s, t) && s.tasks[t].stage.Waiting? && StageFits(s.tasks[t])
    requires t in EnterStart(s, t, deferred).tasks && Adopting(EnterStart(s, t, deferred).tasks[t])
    ensures var p := s.tasks[t].port; var r := EnterStart(s, t, deferred);
            && At(r, t) && r.tasks[t].stage.Spawning? && r.tasks[t].port == p && r.tasks[t].role == s.tasks[t].role
            && p !in r.m.nodes.restartTasks
            && p in s.m.withheld && s.now - s.m.withheld[p].armedAt <= WITHHOLD_OWNERSHIP_MAX_SEC
  {
    var p := s.tasks[t].port;
    var taken := TakeOver(s, p, t);
    TakeOverFrame(s, t, p);
    RaisedIsNotSpawning(DischargeUnserved(taken, p, Adopts(taken.m, p)), t, AlreadyRunning);
    RaisedIsNotSpawning(taken, t, Deferred);
    hide StartRaises; hide Running; hide ServedElsewhere;
  }

  lemma RaisedIsNotSpawning(s: Sys, t: TaskId, failure: Failure)
    requires t in s.tasks && failure in {AlreadyRunning, Deferred}
    ensures t !in StartRaises(s, t, failure).tasks
  {
  }

  // ---- Restart attempts ----

  /**
   No window of 300 s contains more than six attempts charged to a port since it was last
   forgotten, and none contains more than five unless an adopting start charged a record
   that was already gone.
   */
  lemma AttemptsAreSpaced(s: Sys, p: Port, i: nat)
    requires Reachable(s)
    ensures var log := TimesOf(s.audit.log, p);
            && (i + 6 < |log| ==> log[i + 6] - log[i] > AUTO_RESTART_WINDOW_SEC)
            && (i + 5 < |log| && p !in s.audit.orphaned ==> log[i + 5] - log[i] > AUTO_RESTART_WINDOW_SEC)
  {
    ReachableInv(s);
    hide EventsOk; hide NodesOk; hide TasksOk; hide RecordsOk; hide OwnersOk; hide RoomsOk; hide CrowdsOk; hide RunsOk;
    hide Ascending;
    assert HistoryOk(TimesOf(s.m.attempts, p), TimesOf(s.audit.log, p), p in s.audit.orphaned, p in s.m.withheld,
                     s.now);
  }

  /**
   If no iteration of backoff plus start took longer than 60 s, a run of the restart loop made at
   most five starts.
   */
  lemma AtMostFiveStarts(s: Sys, t: TaskId)
    requires Reachable(s) && t in s.tasks && s.tasks[t].role == AutoRestart && s.tasks[t].loop.timely
    ensures s.tasks[t].loop.starts <= 5
  {
    ReachableInv(s);
    hide EventsOk; hide NodesOk; hide TasksOk; hide RecordsOk; hide OwnersOk; hide AttemptsOk;
    assert RunOk(s.tasks[t], TimesOf(s.m.attempts, s.tasks[t].port), s.now);
  }

  // ---- One process per identity ----

  /** At every await point two tracked live processes differ in port, in pid and in (target, platform). */
  lemma OneLiveProcessPerIdentity(s: Sys, p: Port, q: Port)
    requires Reachable(s) && Running(s.m.nodes, s.alive, p) && Running(s.m.nodes, s.alive, q) && p != q
    ensures p in s.m.nodes.info && q in s.m.nodes.info
    ensures s.m.nodes.procs[p] != s.m.nodes.procs[q]
    ensures s.m.nodes.info[p].identity != s.m.nodes.info[q].identity
    ensures s.m.nodes.info[p].pid == s.m.nodes.procs[p]
  {
    ReachableInv(s);
    hide EventsOk; hide TasksOk; hide RecordsOk; hide OwnersOk; hide AttemptsOk; hide RunsOk;
  }

  /**
   While one start is spawning, no other start or stop is inside the lock, and its port and identity
   stay unserved.
   */
  lemma SpawnsAreExclusive(s: Sys, t: TaskId, u: TaskId)
    requires Reachable(s) && t in s.tasks && u in s.tasks && t != u && s.tasks[t].stage.Spawning?
    ensures !HoldsLock(s.tasks[u].stage)
    ensures !Running(s.m.nodes, s.alive, s.tasks[t].port)
    ensures !ServedElsewhere(s.m.nodes, s.alive, s.tasks[t].stage.identity, s.tasks[t].port)
  {
    ReachableInv(s);
    hide EventsOk; hide NodesOk; hide RecordsOk; hide OwnersOk; hide AttemptsOk; hide RunsOk; hide Running;
    hide ServedElsewhere;
    assert TaskOk(s.m.nodes, s.alive, s.lock, t, s.tasks[t]);
    assert TaskOk(s.m.nodes, s.alive, s.lock, u, s.tasks[u]);
  }

  // ---- Snapshots ----

  /** One entry of `running_nodes`. */
  datatype NodeView = NodeView(port: Port, pid: Pid, identity: Identity, activeSession: Option<bool>, coalesced: bool)

  /** What session enumeration found per (port, pid); `None` is an enumeration without an answer. */
  type Samples = map<(Port, Pid), Option<bool>>

  function LiveView(n: Nodes, samples: Samples, p: Port): (r: NodeView)
    requires p in n.info
  {
    var pid := n.info[p].pid;
    NodeView(p, pid, n.info[p].identity, if (p, pid) in samples then samples[(p, pid)] else None, false)
  }

  function CoalescedView(n: Nodes, p: Port): (r: NodeView)
    requires p in n.info
  {
    NodeView(p, n.info[p].pid, n.info[p].identity, None, true)
  }

  /** The list a snapshot assembles after its last await, in any order. */
  ghost predicate IsNodeList(m: Manager, alive: set<Pid>, now: Time, samples: Samples, views: seq<NodeView>) {
    && (forall i, j :: 0 <= i < j < |views| ==> views[i].port != views[j].port)
    && (forall i :: 0 <= i < |views| ==>
          && views[i].port in m.nodes.info
          && views[i] ==
             (if Running(m.nodes, alive, views[i].port) then LiveView(m.nodes, samples, views[i].port)
              else CoalescedView(m.nodes, views[i].port))
          && (Running(m.nodes, alive, views[i].port) || (views[i].port in m.withheld
                                                         && Active(m.withheld[views[i].port], now))))
    && (forall p :: p in m.nodes.info && (Running(m.nodes, alive, p)
                                          || (p in m.withheld && Active(m.withheld[p], now))) ==>
          exists i :: 0 <= i < |views| && views[i].port == p)
  }

  /**
   Whatever the enumeration sampled while other steps ran: a port with an active withhold
   appears exactly once, a live port is never coalesced, and a session answer is shown only
   for the very (port, pid) it was sampled from.
   */
  lemma SnapshotIsConsistent(s: Sys, samples: Samples, views: seq<NodeView>)
    requires Reachable(s) && IsNodeList(s.m, s.alive, s.now, samples, views)
    ensures forall p :: p in s.m.withheld && Active(s.m.withheld[p], s.now) ==>
              exists i :: 0 <= i < |views| && views[i].port == p
                  && (forall j :: 0 <= j < |views| && views[j].port == p ==> j == i)
    ensures forall p :: Running(s.m.nodes, s.alive, p) ==>
              exists i :: 0 <= i < |views| && views[i].port == p && views[i].pid == s.m.nodes.procs[p]
    ensures forall i :: 0 <= i < |views| && views[i].coalesced ==>
              !Running(s.m.nodes, s.alive, views[i].port) && views[i].port in s.m.withheld
                  && Active(s.m.withheld[views[i].port], s.now)
    ensures forall i :: 0 <= i < |views| && views[i].activeSession.Some? ==>
              && !views[i].coalesced && Running(s.m.nodes, s.alive, views[i].port)
              && (views[i].port, views[i].pid) in samples
                 && samples[(views[i].port, views[i].pid)] == views[i].activeSession
  {
    ReachableInv(s);
    forall p | p in s.m.withheld ensures p in s.m.nodes.info { RecordNamed(s, p); }
    assert s.m.nodes.procs.Keys == s.m.nodes.info.Keys && forall p :: p in s.m.nodes.procs ==>
             s.m.nodes.info[p].pid == s.m.nodes.procs[p] by {
      hide EventsOk; hide TasksOk; hide RecordsOk; hide OwnersOk; hide AttemptsOk; hide RunsOk; hide UniqueIdentities;
    }
    hide Inv; hide Reachable;
  }
}
