/** The one branch that can take a port past five charged attempts in the restart window. */
module OrphanCharges {
  import opened ManagerState
  import opened ManagerSteps
  import opened ManagerInvariant
  import opened ManagerOperations
  import opened ManagerSafety

  /** An adopting start comes up and finds the record it adopted gone. */
  predicate FindsRecordGone(s: Sys, a: Action, p: Port) {
    && a.SpawnSucceeds? && a.task in s.tasks && Adopting(s.tasks[a.task]) && s.tasks[a.task].port == p
    && p !in s.m.withheld
  }

  ghost predicate NoNewOrphans(s: Sys, r: Sys) {
    r.audit.orphaned <= s.audit.orphaned
  }

  lemma LoopHeadOrphans(s: Sys, t: TaskId, p: Port, loop: Loop)
    ensures NoNewOrphans(s, LoopHead(s, t, p, loop))
  {
    TrimKeepsRest(s.m, p, s.now);
    hide NextAttempt; hide TrimAttempts; hide Newest; hide NextDelay;
  }

  lemma StartRaisesOrphans(s: Sys, t: TaskId, failure: Failure)
    requires t in s.tasks
    ensures NoNewOrphans(s, StartRaises(s, t, failure))
  {
    hide LoopHead; hide Newest; hide CancelEntry; hide ForgetNode;
    var task := s.tasks[t];
    var p := task.port;
    var released := ReleaseIfFirst(Park(s, t).(m := AdvanceBackoff(s.m, p)), p, task.loop);
    LoopHeadOrphans(released, t, p, NextIteration(task.loop, s.now));
  }

  lemma EnterStartOrphans(s: Sys, t: TaskId, deferred: bool)
    requires t in s.tasks && s.tasks[t].stage.Waiting?
    ensures NoNewOrphans(s, EnterStart(s, t, deferred))
  {
    hide StartRaises; hide ServedElsewhere; hide Running;
    var p := s.tasks[t].port;
    var taken := TakeOver(s, p, t);
    StartRaisesOrphans(DischargeUnserved(taken, p, Adopts(taken.m, p)), t, AlreadyRunning);
    StartRaisesOrphans(taken, t, Deferred);
  }

  lemma TallyOrphans(s: Sys, p: Port, charge: bool, settle: bool)
    ensures Tally(s, p, charge, settle).orphaned == s.audit.orphaned
  {
  }

  lemma WakeOrphans(s: Sys, t: TaskId)
    requires t in s.tasks
    ensures NoNewOrphans(s, Wake(s, t, s.tasks[t].port, s.tasks[t].loop))
  {
    var p, loop := s.tasks[t].port, s.tasks[t].loop;
    TallyOrphans(Park(s, t), p, OwnsRecord(Park(s, t), p, loop), false);
    hide Trim; hide Running; hide CancelEntry; hide ForgetNode; hide Tally;
  }

  lemma SettleOrphans(s: Sys, p: Port, pid: Pid)
    ensures Settle(s, p, pid).audit.orphaned == s.audit.orphaned + (if p in s.m.withheld then {} else {p})
  {
    hide Trim; hide Newest;
  }

  lemma RecoveredOrphans(s: Sys, p: Port, pid: Pid, loop: Loop)
    ensures Recovered(s, p, pid, loop).audit.orphaned == s.audit.orphaned
  {
    hide Newest;
  }

  lemma RespawnedOrphans(s: Sys, t: TaskId)
    requires t in s.tasks && s.tasks[t].stage.Spawning?
    ensures var p := s.tasks[t].port;
            Respawned(s, t).audit.orphaned ==
            s.audit.orphaned + (if s.tasks[t].stage.adopted && p !in s.m.withheld then {p} else {})
  {
    hide Register; hide Settle; hide Recovered;
    var task := s.tasks[t];
    RegisterFrame(Leave(s, t), task.port, task.stage.identity, task.stage.stops, t);
    var up := Register(Leave(s, t), task.port, task.stage.identity, task.stage.stops, t);
    SettleOrphans(up, task.port, s.nextPid);
    var settled := if task.stage.adopted then Settle(up, task.port, s.nextPid) else up;
    RecoveredOrphans(settled, task.port, s.nextPid, task.loop);
  }

  /** A step charges an attempt without a record exactly when an adopting start finds its record gone. */
  lemma OrphanedExactlyWhenGone(s: Sys, a: Action, p: Port)
    requires Enabled(s, a) && p !in s.audit.orphaned
    ensures p in Apply(s, a).audit.orphaned <==> FindsRecordGone(s, a, p)
  {
    hide LoopHead; hide Wake; hide StartRaises; hide EnterStart; hide Respawned; hide CancelFlag; hide Running;
    hide FirstIteration;
    hide CancelEntry; hide ForgetNode;
    match a
    case RestartBegins(t) => LoopHeadOrphans(s, t, s.tasks[t].port, FirstIteration(s.now));
    case BackoffEnds(t) => WakeOrphans(s, t);
    case HooksFail(t, f) => StartRaisesOrphans(s, t, f);
    case LockTaken(t, deferred) => EnterStartOrphans(s, t, deferred);
    case SpawnFails(t, f) => StartRaisesOrphans(DischargeUnserved(s, s.tasks[t].port, s.tasks[t].stage.adopted), t, f);
    case SpawnSucceeds(t) => RespawnedOrphans(s, t);
    case _ =>
  }

  ghost predicate NeverGone(s: Sys, actions: seq<Action>, p: Port)
    decreases |actions|
  {
    actions != [] && Enabled(s, actions[0]) ==>
      !FindsRecordGone(s, actions[0], p) && NeverGone(Apply(s, actions[0]), actions[1..], p)
  }

  lemma {:induction false} NeverOrphaned(s: Sys, actions: seq<Action>, r: Sys, p: Port)
    requires IsRun(s, actions, r) && NeverGone(s, actions, p) && p !in s.audit.orphaned
    ensures p !in r.audit.orphaned
    decreases |actions|
  {
    if actions != [] {
      OrphanedExactlyWhenGone(s, actions[0], p);
      hide Apply; hide Enabled; hide FindsRecordGone;
      NeverOrphaned(Apply(s, actions[0]), actions[1..], r, p);
    }
  }

  /**
   Along every run in which no adopting start of the port finds its record gone, no window of
   300 s holds more than five attempts charged since the port was last forgotten.
   */
  lemma FiveAttemptsUnlessRecordGone(actions: seq<Action>, s: Sys, p: Port, i: nat)
    requires IsRun(INITIAL, actions, s) && NeverGone(INITIAL, actions, p)
    requires i + 5 < |TimesOf(s.audit.log, p)|
    ensures TimesOf(s.audit.log, p)[i + 5] - TimesOf(s.audit.log, p)[i] > AUTO_RESTART_WINDOW_SEC
  {
    NeverOrphaned(INITIAL, actions, s, p);
    RunFromInitial(actions, s);
    hide NeverGone; hide IsRun;
    hide EventsOk; hide NodesOk; hide TasksOk; hide RecordsOk; hide OwnersOk; hide RoomsOk; hide CrowdsOk; hide RunsOk;
    hide Ascending;
    assert HistoryOk(TimesOf(s.m.attempts, p), TimesOf(s.audit.log, p), p in s.audit.orphaned, p in s.m.withheld,
                     s.now);
  }

  lemma RunFromInitial(actions: seq<Action>, s: Sys)
    requires IsRun(INITIAL, actions, s)
    ensures Inv(s)
  {
    hide IsRun; hide Inv;
    assert Reachable(s);
    ReachableInv(s);
  }
}
