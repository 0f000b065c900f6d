/**
 Exactly when the source's bound of five attempts in the restart window is broken: by a charge that
 finds five unexpired attempts on the port's books.
 */
module ChargeBounds {
  import opened ManagerState
  import opened ManagerSteps
  import opened ManagerInvariant
  import opened ManagerOperations
  import opened ManagerSafety

  /**
   The steps that charge an attempt to the port and keep it: a sleeping restart task wakes past its
   guards with the port still down, or an adopting start comes up and its record is gone or uncharged.
   */
  predicate Charges(s: Sys, a: Action, p: Port) {
    match a
    case BackoffEnds(t) =>
      && t in s.tasks && s.tasks[t].port == p && p !in s.m.intentionalStop && p !in s.m.stopPending
         && p in s.m.nodes.specs
      && !Running(s.m.nodes, s.alive, p)
    case SpawnSucceeds(t) =>
      t in s.tasks && Adopting(s.tasks[t]) && s.tasks[t].port == p && (p in s.m.withheld ==> !s.m.withheld[p].charged)
    case _ => false
  }

  function Log(s: Sys, p: Port): (r: seq<Time>) {
    TimesOf(s.audit.log, p)
  }

  /** The port's charges are as before, or the port was forgotten. */
  predicate SameLog(s: Sys, r: Sys, p: Port) {
    Log(r, p) == Log(s, p) || Log(r, p) == []
  }

  lemma LoopHeadLog(s: Sys, t: TaskId, q: Port, loop: Loop)
    ensures LoopHead(s, t, q, loop).audit.log == s.audit.log
  {
    TrimKeepsRest(s.m, q, s.now);
    hide NextAttempt; hide TrimAttempts; hide Newest; hide NextDelay;
  }

  lemma StartRaisesLog(s: Sys, t: TaskId, failure: Failure, p: Port)
    requires t in s.tasks
    ensures SameLog(s, StartRaises(s, t, failure), p)
  {
    hide LoopHead; hide Newest; hide CancelEntry; hide ForgetNode;
    var task := s.tasks[t];
    var released := ReleaseIfFirst(Park(s, t).(m := AdvanceBackoff(s.m, task.port)), task.port, task.loop);
    LoopHeadLog(released, t, task.port, NextIteration(task.loop, s.now));
  }

  lemma EnterStartLog(s: Sys, t: TaskId, deferred: bool, p: Port)
    requires t in s.tasks && s.tasks[t].stage.Waiting?
    ensures SameLog(s, EnterStart(s, t, deferred), p)
  {
    hide StartRaises; hide ServedElsewhere; hide Running;
    var q := s.tasks[t].port;
    var taken := TakeOver(s, q, t);
    StartRaisesLog(DischargeUnserved(taken, q, Adopts(taken.m, q)), t, AlreadyRunning, p);
    StartRaisesLog(taken, t, Deferred, p);
  }

  lemma TallyLog(s: Sys, q: Port, charge: bool, settle: bool)
    ensures Tally(s, q, charge, settle).log == s.audit.log
  {
  }

  lemma ChargeLog(s: Sys, q: Port, loop: Loop)
    ensures Charge(s, q, loop).audit.log == s.audit.log[q := TimesOf(s.audit.log, q) + [s.now]]
  {
    TallyLog(s, q, OwnsRecord(s, q, loop), false);
    hide Tally; hide ChargeAttempt;
  }

  lemma WakeLog(s: Sys, t: TaskId, p: Port)
    requires t in s.tasks
    ensures var r := Wake(s, t, s.tasks[t].port, s.tasks[t].loop);
            if Charges(s, BackoffEnds(t), p) then Log(r, p) == Log(s, p) + [s.now] else SameLog(s, r, p)
  {
    var q, loop := s.tasks[t].port, s.tasks[t].loop;
    ChargeLog(Park(s, t), q, loop);
    hide Charge; hide CancelEntry; hide ForgetNode; hide Running;
  }

  lemma SettleLog(s: Sys, q: Port, pid: Pid)
    ensures Settle(s, q, pid).audit.log ==
            if q in s.m.withheld && s.m.withheld[q].charged then s.audit.log
            else s.audit.log[q := TimesOf(s.audit.log, q) + [s.now]]
  {
    hide ChargeAttempt; hide Newest;
  }

  lemma RecoveredLog(s: Sys, q: Port, pid: Pid, loop: Loop)
    ensures Recovered(s, q, pid, loop).audit.log == s.audit.log
  {
    hide Newest;
  }

  lemma RespawnedLog(s: Sys, t: TaskId, p: Port)
    requires t in s.tasks && s.tasks[t].stage.Spawning?
    ensures var r := Respawned(s, t);
            if Charges(s, SpawnSucceeds(t), p) then Log(r, p) == Log(s, p) + [s.now] else SameLog(s, r, p)
  {
    hide Register; hide Settle; hide Recovered;
    var task := s.tasks[t];
    RegisterFrame(Leave(s, t), task.port, task.stage.identity, task.stage.stops, t);
    var up := Register(Leave(s, t), task.port, task.stage.identity, task.stage.stops, t);
    SettleLog(up, task.port, s.nextPid);
    var settled := if task.stage.adopted then Settle(up, task.port, s.nextPid) else up;
    RecoveredLog(settled, task.port, s.nextPid, task.loop);
  }

  /** A step appends one charge to the port's log exactly when it is one of the charging steps. */
  lemma ChargesExactly(s: Sys, a: Action, p: Port)
    requires Enabled(s, a)
    ensures if Charges(s, a, p) then Log(Apply(s, a), p) == Log(s, p) + [s.now] else SameLog(s, Apply(s, a), p)
  {
    hide LoopHead; hide Wake; hide StartRaises; hide EnterStart; hide Respawned; hide CancelFlag; hide Running;
    hide FirstIteration;
    hide CancelEntry; hide ForgetNode;
    match a
    case RestartBegins(t) => LoopHeadLog(s, t, s.tasks[t].port, FirstIteration(s.now));
    case BackoffEnds(t) => WakeLog(s, t, p);
    case HooksFail(t, f) => StartRaisesLog(s, t, f, p);
    case LockTaken(t, deferred) => EnterStartLog(s, t, deferred, p);
    case SpawnFails(t, f) => StartRaisesLog(DischargeUnserved(s, s.tasks[t].port, s.tasks[t].stage.adopted), t, f, p);
    case SpawnSucceeds(t) => RespawnedLog(s, t, p);
    case _ =>
  }

  // ---- When a charge is the sixth ----

  /** Any six charges in a row span more than the window. */
  ghost predicate FivePerWindow(log: seq<Time>) {
    forall i, j :: 0 <= i && j == i + 5 && j < |log| ==> log[j] - log[i] > AUTO_RESTART_WINDOW_SEC
  }

  /** The last six charges lie inside one window. */
  predicate CompletesSix(log: seq<Time>) {
    |log| >= 6 && log[|log| - 1] - log[|log| - 6] <= AUTO_RESTART_WINDOW_SEC
  }

  /** The step charges the port although five unexpired attempts are on its books. */
  predicate ChargesSixth(s: Sys, a: Action, p: Port) {
    Charges(s, a, p) && FiveOnBooks(TimesOf(s.m.attempts, p), s.now)
  }

  predicate FiveOnBooks(history: seq<Time>, now: Time) {
    |Trim(history, now)| >= 5
  }

  lemma {:induction false} AscendingOrder(log: seq<Time>, now: Time, i: nat, j: nat)
    requires Ascending(log, now) && i <= j < |log|
    ensures log[i] <= log[j] <= now
  {
  }

  /** One more charge completes six in a window if and only if five unexpired attempts are on the books. */
  lemma FifthBack(h: seq<Time>, log: seq<Time>, orphaned: bool, withheld: bool, now: Time)
    requires HistoryOk(h, log, orphaned, withheld, now)
    ensures FiveOnBooks(h, now) <==> CompletesSix(log + [now])
  {
    var recent := Trim(h, now);
    hide Spaced; hide Trim;
    var first := |log| - |recent|;
    assert forall i :: 0 <= i < first ==> now - log[i] > AUTO_RESTART_WINDOW_SEC by {
      forall i | 0 <= i < first ensures now - log[i] > AUTO_RESTART_WINDOW_SEC {
        if i >= |log| - |h| { assert log[i] == h[i - (|log| - |h|)]; }
      }
    }
    if |recent| >= 5 {
      assert recent[0] == log[first];
      AscendingOrder(log, now, first, |log| - 5);
    }
  }

  /** On every reachable state a charge puts six attempts into one window exactly when five were unexpired before it. */
  lemma SixthExactly(s: Sys, a: Action, p: Port)
    requires Inv(s) && Enabled(s, a) && Charges(s, a, p)
    ensures ChargesSixth(s, a, p) <==> CompletesSix(Log(Apply(s, a), p))
  {
    hide Apply; hide Enabled; hide Inv; hide Charges; hide FiveOnBooks; hide CompletesSix; hide HistoryOk;
    ChargesExactly(s, a, p);
    PortHistory(s, p);
    FifthBack(TimesOf(s.m.attempts, p), Log(s, p), p in s.audit.orphaned, p in s.m.withheld, s.now);
  }

  lemma PortHistory(s: Sys, p: Port)
    requires Inv(s)
    ensures HistoryOk(TimesOf(s.m.attempts, p), Log(s, p), p in s.audit.orphaned, p in s.m.withheld, s.now)
  {
    hide EventsOk; hide NodesOk; hide TasksOk; hide RecordsOk; hide OwnersOk; hide RoomsOk; hide CrowdsOk; hide RunsOk;
    hide HistoryOk;
  }

  /** A step breaks the bound if and only if it charges a sixth. */
  lemma StepBreaksIff(s: Sys, a: Action, p: Port)
    requires Inv(s) && Enabled(s, a) && FivePerWindow(Log(s, p))
    ensures FivePerWindow(Log(Apply(s, a), p)) <==> !ChargesSixth(s, a, p)
  {
    hide Apply; hide Enabled; hide Inv; hide Charges; hide FiveOnBooks; hide Log;
    ChargesExactly(s, a, p);
    if Charges(s, a, p) {
      SixthExactly(s, a, p);
      OneChargeMore(Log(s, p), s.now);
      hide ChargesSixth; hide FivePerWindow; hide CompletesSix;
    } else {
      assert !ChargesSixth(s, a, p) && FivePerWindow([]);
      hide FivePerWindow; hide FiveOnBooks;
    }
  }

  lemma OneChargeMore(log: seq<Time>, now: Time)
    requires FivePerWindow(log)
    ensures FivePerWindow(log + [now]) <==> !CompletesSix(log + [now])
  {
    var after := log + [now];
    assert forall i :: 0 <= i < |log| ==> after[i] == log[i];
    if |after| >= 6 { assert |after| - 1 == (|after| - 6) + 5; }
  }

  /** The bound holds in every state along the run. */
  ghost predicate AlwaysFive(s: Sys, actions: seq<Action>, p: Port)
    decreases |actions|
  {
    && FivePerWindow(Log(s, p))
    && (actions != [] && Enabled(s, actions[0]) ==> AlwaysFive(Apply(s, actions[0]), actions[1..], p))
  }

  ghost predicate NeverSixth(s: Sys, actions: seq<Action>, p: Port)
    decreases |actions|
  {
    actions != [] && Enabled(s, actions[0]) ==>
      !ChargesSixth(s, actions[0], p) && NeverSixth(Apply(s, actions[0]), actions[1..], p)
  }

  lemma {:induction false} AlwaysFiveIff(s: Sys, actions: seq<Action>, r: Sys, p: Port)
    requires Inv(s) && IsRun(s, actions, r) && FivePerWindow(Log(s, p))
    ensures AlwaysFive(s, actions, p) <==> NeverSixth(s, actions, p)
    decreases |actions|
  {
    if actions != [] {
      StepBreaksIff(s, actions[0], p);
      StepKeepsInv(s, actions[0]);
      hide Apply; hide Enabled; hide Inv; hide ChargesSixth; hide FivePerWindow; hide Log;
      var next := Apply(s, actions[0]);
      if FivePerWindow(Log(next, p)) {
        AlwaysFiveIff(next, actions[1..], r, p);
      }
    }
  }

  /**
   The exact condition, for every run and port: between two forgets no 300 s window ever holds more
   than five charged attempts if and only if no step charges the port while five unexpired attempts
   are on its books.
   */
  lemma FiveAttemptsIff(actions: seq<Action>, s: Sys, p: Port)
    requires IsRun(INITIAL, actions, s)
    ensures AlwaysFive(INITIAL, actions, p) <==> NeverSixth(INITIAL, actions, p)
  {
    InitialInv();
    assert Log(INITIAL, p) == [];
    hide Inv; hide IsRun;
    AlwaysFiveIff(INITIAL, actions, s, p);
  }
}
