/**
 The process manager's fields updated in place (agent/agent_app/appium/process.py). Every
 method is one synchronous piece of the source and is tied to the value-level operation the
 step machine is built from.
 */
module ProcessManager {
  import opened Options
  import opened ManagerState
  import opened ManagerSteps
  import opened ManagerPublication
  import opened ManagerTheorems

  class AppiumProcessManager {
    var procs: map<Port, Pid>
    var info: map<Port, Info>
    var specs: map<Port, Spec>
    var restartTasks: map<Port, TaskId>
    var watchTasks: map<Port, TaskId>
    var attempts: map<Port, seq<Time>>
    var backoff: map<Port, nat>
    var stopPending: set<Port>
    var intentionalStop: set<Port>
    var ring: seq<Event>
    var lastSequence: nat
    var withheld: map<Port, Withheld>

    function Value(): (m: Manager)
      reads this
    {
      Manager(Nodes(procs, info, specs, restartTasks, watchTasks), attempts, backoff, stopPending, intentionalStop,
              ring, lastSequence, withheld)
    }

    constructor ()
      ensures Value() == FRESH_MANAGER
    {
      procs, info, specs, restartTasks, watchTasks := map[], map[], map[], map[], map[];
      attempts, backoff, stopPending, intentionalStop := map[], map[], {}, {};
      ring, lastSequence, withheld := [], 0, map[];
    }

    method TrimRestartAttempts(port: Port, now: Time) returns (history: seq<Time>)
      modifies this`attempts
      ensures Value() == TrimAttempts(old(Value()), port, now)
      ensures history == Trim(TimesOf(old(attempts), port), now)
    {
      history := if port in attempts then attempts[port] else [];
      while history != [] && now - history[0] > AUTO_RESTART_WINDOW_SEC
        invariant Trim(history, now) == Trim(TimesOf(old(attempts), port), now)
        decreases |history|
      {
        history := history[1..];
      }
      attempts := attempts[port := history];
    }

    method RecordRestartEvent(kind: EventKind, port: Port, pid: Option<Pid>, attempt: nat, delay: Option<nat>,
                              willRetry: bool, now: Time)
      returns (sequence: nat)
      modifies this`ring, this`lastSequence
      ensures Value() ==
              RecordEvent(old(Value()), NextEvent(old(Value()), kind, port, pid, attempt, delay, willRetry, now))
      ensures sequence == lastSequence
    {
      sequence := lastSequence + 1;
      var longer := ring + [Event(sequence, kind, port, pid, attempt, delay, now, willRetry)];
      if |longer| > MAX_RESTART_EVENTS {
        longer := longer[|longer| - MAX_RESTART_EVENTS..];
      }
      lastSequence, ring := sequence, longer;
    }

    method ReleaseFirstRestartObservation(port: Port)
      modifies this`withheld
      ensures Value() == ReleaseWithhold(old(Value()), port)
    {
      withheld := withheld - {port};
    }

    method CancelRestartTask(port: Port, self: TaskId) returns (cancelled: Option<TaskId>)
      modifies this`restartTasks
      ensures Value() == old(Value()).(nodes := DropRestartTask(old(Value()).nodes, port, self))
      ensures cancelled == if port in old(restartTasks) && old(restartTasks)[port] != self
              then Some(old(restartTasks)[port]) else None
    {
      cancelled := None;
      if port in restartTasks {
        var task := restartTasks[port];
        restartTasks := restartTasks - {port};
        if task == self {
          restartTasks := restartTasks[port := task];
        } else {
          cancelled := Some(task);
        }
      }
    }

    method ReapStaleWithhold(port: Port, now: Time)
      modifies this`withheld
      ensures Value() == ReapStale(old(Value()), port, now)
    {
      if port in restartTasks { return; }
      if port !in withheld { return; }
      if now - withheld[port].armedAt > WITHHOLD_OWNERSHIP_MAX_SEC {
        withheld := withheld - {port};
      }
    }

    method DischargeAdoptedRestart(port: Port, respawned: Option<Pid>, now: Time)
      modifies this
      ensures Value() == Discharge(old(Value()), port, respawned, now)
    {
      RecordFrame(Value(), NextEvent(Value(), RestartSucceeded, port, respawned, 1, None, false, now));
      hide RecordEvent; hide ChargeAttempt; hide NextEvent;
      if respawned.Some? {
        var _ := RecordRestartEvent(RestartSucceeded, port, respawned, 1, None, false, now);
        if port !in withheld || !withheld[port].charged {
          var _ := AppendAttempt(port, now);
        }
      }
      ReleaseFirstRestartObservation(port);
    }

    /**
     What a start does first under the start lock; `adopted` says whether it owns the port's
     withhold from here on.
     */
    method TakeOverPort(port: Port, self: TaskId, now: Time) returns (adopted: bool, cancelled: Option<TaskId>)
      modifies this`restartTasks, this`withheld
      ensures Value() == ReapStale(old(Value()).(nodes := DropRestartTask(old(Value()).nodes, port, self)), port, now)
      ensures adopted == Adopts(Value(), port)
      ensures adopted ==> withheld == old(withheld) && now - withheld[port].armedAt <= WITHHOLD_OWNERSHIP_MAX_SEC
    {
      cancelled := CancelRestartTask(port, self);
      ReapStaleWithhold(port, now);
      adopted := port !in restartTasks && port in withheld;
    }

    method DropPortTables(port: Port) returns (proc: Option<Pid>, watch: Option<TaskId>)
      modifies this`procs, this`info, this`specs, this`watchTasks, this`attempts, this`backoff
      ensures Value() ==
              old(Value()).(nodes := Nodes(old(procs) - {port}, old(info) - {port}, old(specs) - {port}, restartTasks,
                                           old(watchTasks) - {port}),
                                       attempts := old(attempts) - {port}, backoff := old(backoff) - {port})
      ensures proc == if port in old(procs) then Some(old(procs)[port]) else None
      ensures watch == if port in old(watchTasks) then Some(old(watchTasks)[port]) else None
    {
      watch := if port in watchTasks then Some(watchTasks[port]) else None;
      proc := if port in procs then Some(procs[port]) else None;
      watchTasks, procs, info, specs := watchTasks - {port}, procs - {port}, info - {port}, specs - {port};
      attempts, backoff := attempts - {port}, backoff - {port};
    }

    method ForgetAppiumPort(port: Port, self: TaskId) returns (proc: Option<Pid>, restart: Option<TaskId>,
                                                               watch: Option<TaskId>)
      modifies this
      ensures Value() == ManagerState.ForgetPort(old(Value()), port, self)
      ensures proc == if port in old(procs) then Some(old(procs)[port]) else None
      ensures restart.Some? <==> port in old(restartTasks) && old(restartTasks)[port] != self
    {
      ReleaseFirstRestartObservation(port);
      restart := CancelRestartTask(port, self);
      proc, watch := DropPortTables(port);
    }

    /** The locked region of `start()` pins the launch spec right before it spawns. */
    method PinLaunchSpec(port: Port, identity: Identity, stops: bool, ghost s: Sys, ghost t: TaskId, ghost task: Task)
      requires s.m == Value() && task.port == port && task.stage == Waiting(identity, stops)
      modifies this`specs, this`intentionalStop, this`stopPending
      ensures Value() == Committed(s, t, task).m
    {
      specs := specs[port := Spec(identity, stops)];
      intentionalStop := intentionalStop - {port};
      if stops {
        stopPending := stopPending + {port};
      } else {
        stopPending := stopPending - {port};
      }
    }

    /** The spawned process is tracked, watched and described. */
    method RegisterSpawned(port: Port, pid: Pid, watcher: TaskId, identity: Identity, stops: bool, ghost s: Sys,
                           ghost self: TaskId)
      requires s.m == Value() && pid == s.nextPid && watcher == s.nextTask
      modifies this`procs, this`info, this`watchTasks, this`stopPending
      ensures Value() == Register(s, port, identity, stops, self).m
    {
      procs := procs[port := pid];
      watchTasks := watchTasks[port := watcher];
      info := info[port := Info(pid, identity)];
      if stops {
        stopPending := stopPending + {port};
      }
    }

    method ReconfigureNode(port: Port, stops: bool, ghost s: Sys) returns (known: bool)
      requires s.m == Value()
      modifies this`specs, this`stopPending
      ensures known == (port in info)
      ensures Value() == if known then Reconfigure(s, port, stops).m else old(Value())
    {
      if port !in info {
        return false;
      }
      if port in specs {
        specs := specs[port := specs[port].(stopPending := stops)];
      }
      if stops {
        stopPending := stopPending + {port};
      } else {
        stopPending := stopPending - {port};
      }
      known := true;
    }

    /** `stop()` under the lock, up to the wait for the process. */
    method BeginStop(port: Port, self: TaskId, ghost s: Sys) returns (victim: Option<Pid>)
      requires s.m == Value() && self in s.tasks && s.tasks[self].port == port
      modifies this
      ensures Value() == StopBegins(s, self).m
      ensures victim == if port in old(procs) then Some(old(procs)[port]) else None
    {
      intentionalStop := intentionalStop + {port};
      var restart, watch;
      victim, restart, watch := ForgetAppiumPort(port, self);
    }

    /** The attempt goes on the books before `start()` runs. */
    method ChargeBeforeStart(port: Port, now: Time) returns (attempt: nat)
      modifies this`attempts, this`withheld
      ensures Value() == MarkCharged(ChargeAttempt(old(Value()), port, now), port)
      ensures attempt == |TimesOf(attempts, port)|
    {
      attempt := AppendAttempt(port, now);
      hide ChargeAttempt;
      if port in withheld {
        withheld := withheld[port := withheld[port].(charged := true)];
      }
    }

    method AppendAttempt(port: Port, now: Time) returns (attempt: nat)
      modifies this`attempts
      ensures Value() == ChargeAttempt(old(Value()), port, now)
      ensures port in attempts && attempt == |attempts[port]|
    {
      hide Trim; hide TimesOf;
      var history := TrimRestartAttempts(port, now);
      attempt := |history| + 1;
      OverwriteTwice(old(attempts), port, history, history + [now]);
      attempts := attempts[port := history + [now]];
    }

    /** The head of the restart loop: record the crash, arm the first attempt's withhold, or give up. */
    method BeginAttempt(port: Port, now: Time) returns (retry: bool)
      requires port !in intentionalStop && port !in stopPending
      modifies this`attempts, this`ring, this`lastSequence, this`withheld
      ensures Value() == AttemptBegun(old(Value()), port, now)
      ensures retry <==> |Trim(TimesOf(old(attempts), port), now)| < AUTO_RESTART_MAX_ATTEMPTS
    {
      hide TimesOf; hide CrashHandled; hide TrimAttempts; hide Trim;
      var history := TrimRestartAttempts(port, now);
      retry := HandleCrash(port, |history| + 1, now);
    }

    /** Record the crash, then arm its withhold, leave it be, or give up, by the number of the attempt. */
    method HandleCrash(port: Port, attempt: nat, now: Time) returns (retry: bool)
      modifies this`ring, this`lastSequence, this`withheld
      ensures Value() == CrashHandled(old(Value()), port, attempt, now)
      ensures retry <==> attempt <= AUTO_RESTART_MAX_ATTEMPTS
    {
      hide Newest; hide NextDelay;
      var pid := if port in info then Some(info[port].pid) else None;
      retry := attempt <= AUTO_RESTART_MAX_ATTEMPTS;
      if retry {
        var delay := NextDelay(Value(), port);
        var sequence := RecordRestartEvent(CrashDetected, port, pid, attempt, Some(delay), true, now);
        if attempt == 1 {
          withheld := withheld[port := Withheld(sequence, now + FIRST_RESTART_WITHHOLD_MAX_SEC, now, false)];
        }
      } else {
        var _ := RecordRestartEvent(CrashDetected, port, pid, attempt, None, false, now);
        var _ := RecordRestartEvent(RestartExhausted, port, pid, attempt, None, false, now);
      }
    }

    /** Withholds still inside their backstop. */
    method ActiveWithholds(now: Time) returns (active: map<Port, Withheld>)
      ensures active.Keys <= withheld.Keys
      ensures forall p :: p in withheld ==> (p in active <==> Active(withheld[p], now))
      ensures forall p :: p in active ==> active[p] == withheld[p]
    {
      active := map[];
      var ports := withheld.Keys;
      while ports != {}
        invariant ports <= withheld.Keys
        invariant active.Keys <= withheld.Keys - ports
        invariant forall p :: p in withheld.Keys - ports ==> (p in active <==> Active(withheld[p], now))
        invariant forall p :: p in active ==> active[p] == withheld[p]
        decreases ports
      {
        var p :| p in ports;
        ports := ports - {p};
        if now < withheld[p].expiresAt {
          active := active[p := withheld[p]];
        }
      }
    }

    method LowestSequence(active: map<Port, Withheld>) returns (cut: Option<nat>)
      ensures cut.None? <==> active == map[]
      ensures cut.Some? ==> (exists p :: p in active && active[p].sequence == cut.value) && forall p :: p in active ==>
                cut.value <= active[p].sequence
    {
      cut := None;
      var ports := active.Keys;
      while ports != {}
        invariant ports <= active.Keys
        invariant cut.None? ==> ports == active.Keys
        invariant cut.Some? ==> exists p :: p in active && active[p].sequence == cut.value
        invariant cut.Some? ==> forall p :: p in active.Keys - ports ==> cut.value <= active[p].sequence
        decreases ports
      {
        var p :| p in ports;
        ports := ports - {p};
        if cut.None? || active[p].sequence < cut.value {
          cut := Some(active[p].sequence);
        }
      }
    }

    /** One view per running port. */
    method RunningViews(alive: set<Pid>, samples: Samples) returns (views: seq<NodeView>)
      ensures Listed(Value().nodes, alive, samples, {}, info.Keys, views)
    {
      var n := Nodes(procs, info, specs, restartTasks, watchTasks);
      views := [];
      var ports := info.Keys;
      while ports != {}
        invariant ports <= info.Keys
        invariant Listed(n, alive, samples, {}, info.Keys - ports, views)
        decreases ports
      {
        var p :| p in ports;
        ghost var seen := info.Keys - ports;
        ports := ports - {p};
        if p in procs && procs[p] in alive {
          ListedMore(n, alive, samples, {}, seen, views, p);
          views := views + [LiveView(n, samples, p)];
        }
        assert info.Keys - ports == seen + {p};
      }
      assert info.Keys - ports == info.Keys;
    }

    /** Append the ports whose dead process is retained for a withheld crash. */
    method RetainedViews(alive: set<Pid>, ghost samples: Samples, dead: set<Port>,
                         running: seq<NodeView>) returns (views: seq<NodeView>)
      requires Listed(Value().nodes, alive, samples, {}, info.Keys, running)
      requires forall p :: p in dead ==> p in info && !Running(Value().nodes, alive, p)
      ensures Listed(Value().nodes, alive, samples, dead, info.Keys, views)
    {
      var n := Nodes(procs, info, specs, restartTasks, watchTasks);
      views := running;
      var left := dead;
      assert dead - left == {};
      while left != {}
        invariant left <= dead
        invariant Listed(n, alive, samples, dead - left, info.Keys, views)
        decreases left
      {
        var p :| p in left;
        ghost var done := dead - left;
        ListedDead(n, alive, samples, done, info.Keys, views, p);
        left := left - {p};
        views := views + [CoalescedView(n, p)];
        assert dead - left == done + {p};
      }
      assert dead - left == dead;
    }

    /** The running nodes, then the retained ones. */
    method NodeViews(alive: set<Pid>, active: map<Port, Withheld>, samples: Samples,
                     now: Time) returns (views: seq<NodeView>)
      requires active.Keys <= withheld.Keys
               && (forall p :: p in withheld ==> (p in active <==> Active(withheld[p], now)))
      ensures IsNodeList(Value(), alive, now, samples, views)
    {
      var running := RunningViews(alive, samples);
      var dead := set p | p in active && p in info && !(p in procs && procs[p] in alive);
      views := RetainedViews(alive, samples, dead, running);
    }

    /** The synchronous tail of `process_snapshot`. */
    method ProcessSnapshot(alive: set<Pid>, samples: Samples, now: Time) returns (views: seq<NodeView>,
            events: seq<Event>, ghost cut: Option<nat>)
      ensures IsNodeList(Value(), alive, now, samples, views)
      ensures IsTruncation(withheld, now, cut) && events == Emit(ring, cut)
    {
      var active := ActiveWithholds(now);
      var truncateAt := LowestSequence(active);
      views := NodeViews(alive, active, samples, now);
      events := EmittedEvents(truncateAt);
      cut := truncateAt;
    }

    method EmittedEvents(cut: Option<nat>) returns (events: seq<Event>)
      ensures events == Emit(ring, cut)
    {
      events := [];
      var i := 0;
      while i < |ring|
        invariant 0 <= i <= |ring| && events == Emit(ring[..i], cut)
      {
        assert ring[..i + 1][..i] == ring[..i];
        if cut.None? || ring[i].sequence < cut.value {
          events := events + [ring[i]];
        }
        i := i + 1;
      }
      assert ring[..i] == ring;
    }
  }

  /** The views listed so far: every running port of `seen`, and the retained ports of `dead`. */
  ghost predicate Listed(n: Nodes, alive: set<Pid>, samples: Samples, dead: set<Port>, seen: set<Port>,
                         views: seq<NodeView>) {
    && (forall i, j :: 0 <= i < j < |views| ==> views[i].port != views[j].port)
    && (forall i :: 0 <= i < |views| ==>
          && views[i].port in n.info
          && (if Running(n, alive, views[i].port) then views[i].port in seen && views[i] == LiveView(n, samples,
                  views[i].port)
              else views[i].port in dead && views[i] == CoalescedView(n, views[i].port)))
    && (forall p :: p in n.info && ((p in seen && Running(n, alive, p)) || p in dead) ==>
          exists i :: 0 <= i < |views| && views[i].port == p)
  }

  lemma ListedMore(n: Nodes, alive: set<Pid>, samples: Samples, dead: set<Port>, seen: set<Port>, views: seq<NodeView>,
                   p: Port)
    requires Listed(n, alive, samples, dead, seen, views) && p !in seen && p in n.info && Running(n, alive, p)
    ensures Listed(n, alive, samples, dead, seen + {p}, views + [LiveView(n, samples, p)])
  {
    var more := views + [LiveView(n, samples, p)];
    forall q | q in n.info && ((q in seen + {p} && Running(n, alive, q)) || q in dead)
      ensures exists i :: 0 <= i < |more| && more[i].port == q {
      if q == p { assert more[|views|].port == p; } else { var i :| 0 <= i < |views|
                                                          && views[i].port == q; assert more[i].port == q; }
    }
  }

  lemma ListedDead(n: Nodes, alive: set<Pid>, samples: Samples, dead: set<Port>, seen: set<Port>, views: seq<NodeView>,
                   p: Port)
    requires Listed(n, alive, samples, dead, seen, views) && p !in dead && p in n.info && !Running(n, alive, p)
    ensures Listed(n, alive, samples, dead + {p}, seen, views + [CoalescedView(n, p)])
  {
    var more := views + [CoalescedView(n, p)];
    forall q | q in n.info && ((q in seen && Running(n, alive, q)) || q in dead + {p})
      ensures exists i :: 0 <= i < |more| && more[i].port == q {
      if q == p { assert more[|views|].port == p; } else { var i :| 0 <= i < |views|
                                                          && views[i].port == q; assert more[i].port == q; }
    }
  }

  /** The manager once a crash with this attempt number is recorded and withheld or given up on. */
  function CrashHandled(m: Manager, port: Port, attempt: nat, now: Time): (r: Manager) {
    var pid := KnownPid(m, port);
    if attempt <= AUTO_RESTART_MAX_ATTEMPTS then
      var crashed := RecordEvent(m, NextEvent(m, CrashDetected, port, pid, attempt, Some(NextDelay(m, port)), true,
                                              now));
      if attempt == 1 then Arm(crashed, port, crashed.lastSequence, now) else crashed
    else
      var crashed := RecordEvent(m, NextEvent(m, CrashDetected, port, pid, attempt, None, false, now));
      RecordEvent(crashed, NextEvent(crashed, RestartExhausted, port, pid, attempt, None, false, now))
  }

  /** The manager after the head of the restart loop. */
  function AttemptBegun(m: Manager, port: Port, now: Time): (r: Manager) {
    CrashHandled(TrimAttempts(m, port, now), port, |Trim(TimesOf(m.attempts, port), now)| + 1, now)
  }

  // ---- The methods are the step machine's own operations ----

  lemma BeginAttemptIsLoopHead(s: Sys, t: TaskId, p: Port, loop: Loop)
    requires p !in s.m.intentionalStop && p !in s.m.stopPending
    ensures LoopHead(s, t, p, loop).m == AttemptBegun(s.m, p, s.now)
  {
    DelayIgnoresAttempts(s.m, p, s.now);
    hide Trim; hide NextDelay; hide RecordEvent; hide TrimAttempts; hide Arm;
    TrimFrame(s.m, p, s.now);
  }

  lemma OverwriteTwice(table: map<Port, seq<Time>>, port: Port, first: seq<Time>, second: seq<Time>)
    ensures table[port := first][port := second] == table[port := second]
  {
  }

  lemma TrimFrame(m: Manager, p: Port, now: Time)
    ensures var r := TrimAttempts(m, p, now);
            r.nodes == m.nodes && r.lastSequence == m.lastSequence && KnownPid(r, p) == KnownPid(m, p)
  {
  }

  lemma DelayIgnoresAttempts(m: Manager, p: Port, now: Time)
    ensures NextDelay(TrimAttempts(m, p, now), p) == NextDelay(m, p)
  {
  }

  lemma RecordFrame(m: Manager, e: Event)
    ensures RecordEvent(m, e).withheld == m.withheld
  {
  }

  lemma ChargeFrame(m: Manager, p: Port, now: Time)
    ensures ChargeAttempt(m, p, now).withheld == m.withheld
  {
    hide Trim;
  }

  lemma NothingToRelease(m: Manager, p: Port)
    requires p !in m.withheld
    ensures ReleaseWithhold(m, p) == m
  {
    assert m.withheld - {p} == m.withheld;
  }

  lemma DischargeIsSettle(s: Sys, p: Port, pid: Pid)
    ensures Settle(s, p, pid).m == Discharge(s.m, p, Some(pid), s.now)
  {
    var e := NextEvent(s.m, RestartSucceeded, p, Some(pid), 1, None, false, s.now);
    var recorded := RecordEvent(s.m, e);
    var charged := ChargeAttempt(recorded, p, s.now);
    RecordFrame(s.m, e);
    ChargeFrame(recorded, p, s.now);
    if p !in s.m.withheld { NothingToRelease(charged, p); }
    hide RecordEvent; hide ChargeAttempt; hide ReleaseWithhold; hide NextEvent; hide Tally; hide Logged;
  }
}
