/**
 The consumer side of the published stream: the backend keeps one cursor per host, the
 highest sequence number it has seen, and takes from each push the events above it
 (backend/app/appium_nodes/services/heartbeat.py).
 */
module EventFeed {
  import opened Options
  import opened ManagerState
  import opened ManagerSteps
  import opened ManagerInvariant
  import opened ManagerOperations
  import opened ManagerSafety
  import opened ManagerPublication

  // ---- The horizon never moves back ----

  /** Nothing is forgotten, and nothing at or below an old number becomes withheld anew. */
  ghost predicate Advances(s: Sys, r: Sys) {
    && s.now <= r.now
    && s.audit.history <= r.audit.history
    && (forall k :: |s.audit.history| <= k < |r.audit.history| ==> s.now <= r.audit.history[k].at)
    && s.m.lastSequence <= r.m.lastSequence
    && (forall p :: p in r.m.withheld ==>
          || (p in s.m.withheld && r.m.withheld[p].sequence == s.m.withheld[p].sequence
              && r.m.withheld[p].expiresAt == s.m.withheld[p].expiresAt)
          || r.m.withheld[p].sequence > s.m.lastSequence)
  }

  lemma RecordAdvances(s: Sys, kind: EventKind, p: Port, pid: Option<Pid>, attempt: nat, delay: Option<nat>,
                       willRetry: bool)
    ensures var r := Record(s, kind, p, pid, attempt, delay, willRetry);
            Advances(s, r) && r.m.lastSequence == s.m.lastSequence + 1 && r.now == s.now
  {
    hide Newest;
  }

  lemma ArmAdvances(s: Sys, r: Sys, p: Port)
    requires Advances(s, r) && r.m.lastSequence > s.m.lastSequence
    ensures Advances(s, ArmLatest(r, p))
  {
  }

  /** Bookkeeping of tasks and locks does not show. */
  lemma AdvancesFrame(s: Sys, r: Sys, u: Sys)
    requires Advances(s, r) && u.m == r.m && u.audit == r.audit && u.now == r.now
    ensures Advances(s, u)
  {
  }

  lemma ExhaustAdvances(s: Sys, p: Port, attempt: nat)
    ensures Advances(s, Exhaust(s, p, attempt))
  {
    var first := Record(s, CrashDetected, p, KnownPid(s.m, p), attempt, None, false);
    RecordAdvances(s, CrashDetected, p, KnownPid(s.m, p), attempt, None, false);
    RecordAdvances(first, RestartExhausted, p, KnownPid(s.m, p), attempt, None, false);
    hide Record;
    AdvancesTrans(s, first, Exhaust(s, p, attempt));
  }

  lemma TrimAdvances(s: Sys, p: Port)
    ensures Advances(s, s) && Advances(s, s.(m := TrimAttempts(s.m, p, s.now)))
    ensures TrimAttempts(s.m, p, s.now).lastSequence == s.m.lastSequence
  {
    TrimKeepsRest(s.m, p, s.now);
    hide TrimAttempts;
  }

  lemma LoopHeadAdvances(s: Sys, t: TaskId, p: Port, loop: Loop)
    ensures Advances(s, LoopHead(s, t, p, loop))
  {
    hide NextAttempt; hide NextDelay; hide Advances; hide Record; hide Exhaust; hide ArmLatest; hide Sleeping;
    hide TrimAttempts; hide KnownPid;
    var trimmed := s.(m := TrimAttempts(s.m, p, s.now));
    var attempt := NextAttempt(s.m, p, s.now);
    TrimAdvances(s, p);
    var exhausted := Exhaust(trimmed, p, attempt);
    ExhaustAdvances(trimmed, p, attempt);
    AdvancesTrans(s, trimmed, exhausted);
    var crashed := Record(trimmed, CrashDetected, p, KnownPid(s.m, p), attempt, Some(NextDelay(s.m, p)), true);
    RecordAdvances(trimmed, CrashDetected, p, KnownPid(s.m, p), attempt, Some(NextDelay(s.m, p)), true);
    AdvancesTrans(s, trimmed, crashed);
    ArmAdvances(s, crashed, p);
    AdvancesFrame(s, s, Leave(s, t));
    AdvancesFrame(s, exhausted, Leave(exhausted, t));
    if attempt == 1 {
      AdvancesFrame(s, ArmLatest(crashed, p), SetTask(ArmLatest(crashed, p), t,
                    Sleeping(p, loop, crashed.m.lastSequence, attempt, s.now + NextDelay(s.m, p) as real)));
    } else {
      AdvancesFrame(s, crashed, SetTask(crashed, t,
                    Sleeping(p, loop, crashed.m.lastSequence, attempt, s.now + NextDelay(s.m, p) as real)));
    }
  }

  lemma StartRaisesAdvances(s: Sys, t: TaskId, failure: Failure)
    requires t in s.tasks
    ensures Advances(s, StartRaises(s, t, failure))
  {
    hide LoopHead; hide Newest; hide CancelEntry; hide ForgetNode;
    var task := s.tasks[t];
    var p := task.port;
    var released := ReleaseIfFirst(Park(s, t).(m := AdvanceBackoff(s.m, p)), p, task.loop);
    LoopHeadAdvances(released, t, p, NextIteration(task.loop, s.now));
  }

  lemma EnterStartAdvances(s: Sys, t: TaskId, deferred: bool)
    requires t in s.tasks && s.tasks[t].stage.Waiting?
    ensures Advances(s, EnterStart(s, t, deferred))
  {
    hide StartRaises; hide ServedElsewhere; hide Running;
    var p := s.tasks[t].port;
    var taken := TakeOver(s, p, t);
    StartRaisesAdvances(DischargeUnserved(taken, p, Adopts(taken.m, p)), t, AlreadyRunning);
    StartRaisesAdvances(taken, t, Deferred);
  }

  lemma SettleAdvances(s: Sys, p: Port, pid: Pid)
    ensures Advances(s, Settle(s, p, pid))
  {
    hide Trim; hide Newest;
  }

  lemma RecoveredAdvances(s: Sys, p: Port, pid: Pid, loop: Loop)
    ensures Advances(s, Recovered(s, p, pid, loop))
  {
    hide Newest;
  }

  lemma RespawnedAdvances(s: Sys, t: TaskId)
    requires t in s.tasks && s.tasks[t].stage.Spawning?
    ensures Advances(s, Respawned(s, t))
  {
    hide Register; hide Settle; hide Recovered;
    var task := s.tasks[t];
    RegisterFrame(Leave(s, t), task.port, task.stage.identity, task.stage.stops, t);
    var up := Register(Leave(s, t), task.port, task.stage.identity, task.stage.stops, t);
    SettleAdvances(up, task.port, s.nextPid);
    var settled := if task.stage.adopted then Settle(up, task.port, s.nextPid) else up;
    RecoveredAdvances(settled, task.port, s.nextPid, task.loop);
  }

  lemma ChargeAdvances(s: Sys, p: Port, loop: Loop)
    ensures Advances(s, Charge(s, p, loop))
    ensures Charge(s, p, loop).audit.history == s.audit.history && Charge(s, p, loop).m.lastSequence == s.m.lastSequence
  {
    TallyFrame(s, p, OwnsRecord(s, p, loop), false);
    hide Trim; hide Tally; hide TimesOf; hide OwnsRecord;
  }

  lemma ForgetAdvances(s: Sys, p: Port, self: TaskId)
    ensures Advances(s, Forget(s, p, self))
  {
    hide CancelEntry; hide ForgetNode;
  }

  lemma {:induction false} AdvancesTrans(s: Sys, r: Sys, u: Sys)
    requires Advances(s, r) && Advances(r, u)
    ensures Advances(s, u)
  {
  }

  lemma WakeAdvances(s: Sys, t: TaskId)
    requires t in s.tasks
    ensures Advances(s, Wake(s, t, s.tasks[t].port, s.tasks[t].loop))
  {
    var p, loop := s.tasks[t].port, s.tasks[t].loop;
    var charged := Charge(Park(s, t), p, loop);
    ChargeAdvances(Park(s, t), p, loop);
    ForgetAdvances(Leave(charged, t), p, t);
    hide Charge; hide Forget; hide Running; hide TimesOf;
    assert Advances(s, charged);
    assert Advances(s, Leave(charged, t));
    AdvancesTrans(s, Leave(charged, t), Forget(Leave(charged, t), p, t));
  }

  lemma TallyFrame(s: Sys, p: Port, charge: bool, settle: bool)
    ensures Tally(s, p, charge, settle).history == s.audit.history
  {
  }

  lemma StepAdvances(s: Sys, a: Action)
    requires Enabled(s, a)
    ensures Advances(s, Apply(s, a))
  {
    hide LoopHead; hide Wake; hide StartRaises; hide EnterStart; hide Respawned; hide CancelFlag; hide Running;
    hide FirstIteration;
    hide CancelEntry; hide ForgetNode;
    match a
    case RestartBegins(t) => LoopHeadAdvances(s, t, s.tasks[t].port, FirstIteration(s.now));
    case BackoffEnds(t) => WakeAdvances(s, t);
    case HooksFail(t, f) => StartRaisesAdvances(s, t, f);
    case LockTaken(t, deferred) => EnterStartAdvances(s, t, deferred);
    case SpawnFails(t, f) => StartRaisesAdvances(DischargeUnserved(s, s.tasks[t].port, s.tasks[t].stage.adopted), t, f);
    case SpawnSucceeds(t) => RespawnedAdvances(s, t);
    case _ =>
  }

  /** The upper end of what a push may contain never decreases. */
  lemma HorizonNeverDecreases(s: Sys, a: Action, cut: Option<nat>, next: Option<nat>)
    requires Inv(s) && Enabled(s, a)
    requires IsTruncation(s.m.withheld, s.now, cut) && IsTruncation(Apply(s, a).m.withheld, Apply(s, a).now, next)
    ensures Horizon(s.m, cut) <= Horizon(Apply(s, a).m, next)
  {
    hide Apply; hide Enabled; hide Inv;
    StepAdvances(s, a);
    var r := Apply(s, a);
    if cut.Some? {
      var q :| q in s.m.withheld && Active(s.m.withheld[q], s.now) && s.m.withheld[q].sequence == cut.value;
      RecordNamed(s, q);
    }
    if next.Some? {
      var p :| p in r.m.withheld && Active(r.m.withheld[p], r.now) && r.m.withheld[p].sequence == next.value;
      assert p in s.m.withheld && r.m.withheld[p].sequence == s.m.withheld[p].sequence ==>
               Active(s.m.withheld[p], s.now) || next.value > s.m.lastSequence;
    }
  }

  // ---- Pushes and the backend's cursor ----

  /** One status push; `base` is how many events had left the ring when it was assembled, at time `at`. */
  datatype Push = Push(base: nat, events: seq<Event>, at: Time)

  /**
   The manager, every push ever assembled, the numbers of those delivered, and the backend:
   the events it ingested in order, its cursor, and whether it ever ingested a push assembled
   after an event it had not seen fell out of the ring.
   */
  datatype Feed = Feed(sys: Sys, pushes: seq<Push>, delivered: set<nat>, ingested: seq<Event>, cursor: nat, gap: bool)

  datatype FeedAction = Manage(action: Action) | Assemble(cut: Option<nat>) | Deliver(index: nat)

  const EMPTY_FEED: Feed := Feed(INITIAL, [], {}, [], 0, false)

  /** The candidate events of a push: those above the cursor. */
  function Above(events: seq<Event>, cursor: nat): (r: seq<Event>) {
    if events == [] then []
    else (if events[0].sequence > cursor then [events[0]] else []) + Above(events[1..], cursor)
  }

  /** The cursor after ingesting these candidates, which are in ascending order. */
  function Highest(candidates: seq<Event>, cursor: nat): (r: nat) {
    if candidates == [] then cursor else candidates[|candidates| - 1].sequence
  }

  /** Pushes may be lost, delayed, repeated and reordered: any assembled push may be delivered at any time. */
  ghost predicate FeedEnabled(f: Feed, a: FeedAction) {
    match a
    case Manage(action) => Enabled(f.sys, action)
    case Assemble(cut) => IsTruncation(f.sys.m.withheld, f.sys.now, cut)
    case Deliver(i) => i < |f.pushes|
  }

  function FeedApply(f: Feed, a: FeedAction): (r: Feed)
    requires FeedEnabled(f, a)
  {
    match a
    case Manage(action) => f.(sys := Apply(f.sys, action))
    case Assemble(cut) => f.(pushes := f.pushes + [Push(Base(f.sys), Emit(f.sys.m.ring, cut), f.sys.now)])
    case Deliver(i) =>
      var candidates := Above(f.pushes[i].events, f.cursor);
      f.(delivered := f.delivered + {i}, ingested := f.ingested + candidates, cursor := Highest(candidates, f.cursor),
         gap := f.gap || (f.pushes[i].events != [] && f.cursor < f.pushes[i].base))
  }

  ghost predicate FeedRun(f: Feed, actions: seq<FeedAction>, r: Feed)
    decreases |actions|
  {
    if actions == [] then f == r
    else FeedEnabled(f, actions[0]) && FeedRun(FeedApply(f, actions[0]), actions[1..], r)
  }

  function EndOf(push: Push): (r: nat) {
    push.base + |push.events|
  }

  /** A push is a stretch of the history, and holds whatever was in the ring and 60 s old. */
  ghost predicate PushOk(push: Push, history: seq<Event>) {
    && EndOf(push) <= |history| && push.events == history[push.base..EndOf(push)]
    && (forall k :: push.base <= k < |history| && history[k].at + FIRST_RESTART_WITHHOLD_MAX_SEC <= push.at ==>
          k < EndOf(push))
  }

  /** The cursor has reached the end of every push that was delivered and not empty. */
  ghost predicate Reached(pushes: seq<Push>, delivered: set<nat>, cursor: nat) {
    forall i :: i in delivered ==> i < |pushes| && (pushes[i].events != [] ==> cursor >= EndOf(pushes[i]))
  }

  ghost predicate PushesOk(pushes: seq<Push>, history: seq<Event>) {
    && (forall i :: 0 <= i < |pushes| ==> PushOk(pushes[i], history))
    && (forall i, j :: 0 <= i < j < |pushes| ==> EndOf(pushes[i]) <= EndOf(pushes[j]))
  }

  ghost predicate EndsBelow(pushes: seq<Push>, s: Sys) {
    forall i, cut :: 0 <= i < |pushes| && IsTruncation(s.m.withheld, s.now, cut) ==>
          EndOf(pushes[i]) <= UpperEnd(s, cut)
  }

  /** Ingested events have strictly growing numbers, none above the cursor. */
  ghost predicate Distinct(ingested: seq<Event>, cursor: nat) {
    && (forall i, j :: 0 <= i < j < |ingested| ==> ingested[i].sequence < ingested[j].sequence)
    && (forall i :: 0 <= i < |ingested| ==> ingested[i].sequence <= cursor)
  }

  ghost predicate FeedInv(f: Feed) {
    && Inv(f.sys)
    && PushesOk(f.pushes, f.sys.audit.history) && Past(f.pushes, f.sys.now)
    && EndsBelow(f.pushes, f.sys)
    && Distinct(f.ingested, f.cursor)
    && Reached(f.pushes, f.delivered, f.cursor)
    && f.cursor <= |f.sys.audit.history|
    && (!f.gap ==> f.ingested == f.sys.audit.history[..f.cursor])
  }

  ghost predicate Past(pushes: seq<Push>, now: Time) {
    forall i :: 0 <= i < |pushes| ==> pushes[i].at <= now
  }

  lemma PushesSurvive(pushes: seq<Push>, h: seq<Event>, g: seq<Event>, cursor: nat, now: Time)
    requires PushesOk(pushes, h) && Past(pushes, now) && h <= g && cursor <= |h|
    requires forall k :: |h| <= k < |g| ==> now <= g[k].at
    ensures PushesOk(pushes, g) && g[..cursor] == h[..cursor]
  {
    forall i | 0 <= i < |pushes| ensures PushOk(pushes[i], g) {
      var push := pushes[i];
      assert PushOk(push, h);
      assert g[push.base..EndOf(push)] == h[push.base..EndOf(push)];
      assert forall k :: 0 <= k < |h| ==> g[k] == h[k];
    }
  }

  lemma ManageKeeps(f: Feed, a: Action)
    requires FeedInv(f) && Enabled(f.sys, a)
    ensures FeedInv(f.(sys := Apply(f.sys, a)))
  {
    hide Inv; hide Apply; hide Enabled; hide EndsBelow; hide Distinct; hide PushesOk; hide Reached;
    StepKeepsInv(f.sys, a);
    StepAdvances(f.sys, a);
    EndsStayBelow(f.pushes, f.sys, a);
    PushesSurvive(f.pushes, f.sys.audit.history, Apply(f.sys, a).audit.history, f.cursor, f.sys.now);
  }

  lemma BaseGrows(s: Sys, a: Action)
    requires Enabled(s, a)
    ensures Base(s) <= Base(Apply(s, a))
  {
    StepAdvances(s, a);
    hide Apply; hide Enabled;
  }

  lemma EndsStayBelow(pushes: seq<Push>, s: Sys, a: Action)
    requires Inv(s) && Enabled(s, a) && EndsBelow(pushes, s)
    ensures EndsBelow(pushes, Apply(s, a))
  {
    hide Apply; hide Enabled; hide Inv; hide Base;
    var r := Apply(s, a);
    var cut := TruncationExists(s.m.withheld, s.now);
    BaseGrows(s, a);
    hide IsTruncation; hide Horizon;
    forall i, next | 0 <= i < |pushes| && IsTruncation(r.m.withheld, r.now, next)
      ensures EndOf(pushes[i]) <= UpperEnd(r, next)
    {
      HorizonNeverDecreases(s, a, cut, next);
      assert EndOf(pushes[i]) <= UpperEnd(s, cut);
    }
  }

  /** A push holds every event that is in the ring and at least 60 s old. */
  lemma PushHoldsTheOld(s: Sys, cut: Option<nat>)
    requires Inv(s) && IsTruncation(s.m.withheld, s.now, cut)
    ensures forall k ::
              (Base(s) <= k < |s.audit.history|
               && s.audit.history[k].at + FIRST_RESTART_WITHHOLD_MAX_SEC <= s.now) ==>
                k < UpperEnd(s, cut)
  {
    hide Inv;
    RingInHistory(s);
    if cut.Some? {
      var p :| p in s.m.withheld && Active(s.m.withheld[p], s.now) && s.m.withheld[p].sequence == cut.value;
      RecordNamed(s, p);
    }
  }

  lemma AssembleKeeps(f: Feed, cut: Option<nat>)
    requires FeedInv(f) && IsTruncation(f.sys.m.withheld, f.sys.now, cut)
    ensures FeedInv(f.(pushes := f.pushes + [Push(Base(f.sys), Emit(f.sys.m.ring, cut), f.sys.now)]))
  {
    hide Distinct; hide Inv;
    PushIsContiguous(f.sys, cut);
    PushHoldsTheOld(f.sys, cut);
    forall other | IsTruncation(f.sys.m.withheld, f.sys.now, other) ensures other == cut {
      TruncationIsUnique(f.sys.m.withheld, f.sys.now, other, cut);
    }
  }

  /** The part of a numbered stretch above the cursor. */
  lemma {:induction false} AboveIsSuffix(history: seq<Event>, lo: nat, hi: nat, cursor: nat)
    requires lo <= hi <= |history| && (forall i :: 0 <= i < |history| ==> history[i].sequence == i + 1)
    ensures Above(history[lo..hi], cursor) == if cursor >= hi then []
            else history[if cursor < lo then lo else cursor..hi]
    decreases hi - lo
  {
    if lo < hi {
      assert history[lo..hi][1..] == history[lo + 1..hi];
      AboveIsSuffix(history, lo + 1, hi, cursor);
    }
  }

  lemma IngestKeeps(h: seq<Event>, ingested: seq<Event>, cursor: nat, push: Push)
    requires (forall k :: 0 <= k < |h| ==> h[k].sequence == k + 1) && PushOk(push, h) && cursor <= |h|
             && Distinct(ingested, cursor)
    ensures var candidates := Above(push.events, cursor);
            var next := Highest(candidates, cursor);
            && cursor <= next <= |h|
            && (push.events != [] ==> next >= EndOf(push))
            && Distinct(ingested + candidates, next)
            && (ingested == h[..cursor] && (push.events != [] ==> push.base <= cursor) ==>
                  ingested + candidates == h[..next])
  {
    hide Above;
    AboveIsSuffix(h, push.base, EndOf(push), cursor);
    if cursor < EndOf(push) {
      var from := if cursor < push.base then push.base else cursor;
      var candidates := h[from..EndOf(push)];
      assert forall k :: 0 <= k < |candidates| ==> candidates[k].sequence == from + k + 1;
      assert from == cursor ==> h[..cursor] + candidates == h[..EndOf(push)];
    }
  }

  lemma Numbered(s: Sys)
    requires Inv(s)
    ensures forall k :: 0 <= k < |s.audit.history| ==> s.audit.history[k].sequence == k + 1
  {
    hide NodesOk; hide TasksOk; hide RecordsOk; hide OwnersOk; hide AttemptsOk; hide RunsOk; hide Newest;
    ChronicleNumbers(s.audit.history, s.now);
  }

  lemma DeliverKeeps(f: Feed, i: nat)
    requires FeedInv(f) && i < |f.pushes|
    ensures FeedInv(FeedApply(f, Deliver(i)))
    ensures var r := FeedApply(f, Deliver(i));
            r.cursor >= f.cursor && (f.pushes[i].events != [] ==> r.cursor >= EndOf(f.pushes[i]))
  {
    hide Inv; hide EndsBelow; hide Distinct; hide Above; hide Highest; hide PushOk;
    Numbered(f.sys);
    IngestKeeps(f.sys.audit.history, f.ingested, f.cursor, f.pushes[i]);
  }

  lemma {:induction false} FeedRunKeeps(f: Feed, actions: seq<FeedAction>, r: Feed)
    requires FeedInv(f) && FeedRun(f, actions, r)
    ensures FeedInv(r)
    decreases |actions|
  {
    if actions != [] {
      var a := actions[0];
      assert FeedInv(FeedApply(f, a)) by {
        match a
        case Manage(action) => ManageKeeps(f, action);
        case Assemble(cut) => AssembleKeeps(f, cut);
        case Deliver(i) => DeliverKeeps(f, i);
      }
      hide FeedInv; hide FeedApply; hide FeedEnabled;
      FeedRunKeeps(FeedApply(f, a), actions[1..], r);
    }
  }

  /**
   Over every interleaving of the manager's steps, with pushes lost, repeated and
   reordered: the pushes are stretches of one history whose ends never move back, no
   event is ingested twice or out of order, the cursor has reached the end of every
   delivered push, and unless an unseen event fell out of the ring the backend holds
   exactly the first `cursor` events ever recorded.
   */
  lemma EveryEventExactlyOnce(actions: seq<FeedAction>, f: Feed)
    requires FeedRun(EMPTY_FEED, actions, f)
    ensures PushesOk(f.pushes, f.sys.audit.history)
    ensures Distinct(f.ingested, f.cursor)
    ensures Reached(f.pushes, f.delivered, f.cursor)
    ensures !f.gap ==> f.cursor <= |f.sys.audit.history| && f.ingested == f.sys.audit.history[..f.cursor]
  {
    InitialInv();
    assert FeedInv(EMPTY_FEED) by { hide Inv; }
    hide Inv;
    FeedRunKeeps(EMPTY_FEED, actions, f);
  }

  /**
   So no event is missed: once a push has been delivered that was assembled at least 60 s
   after an event was recorded, with the event still in the ring, the backend has
   ingested that event, in its own place, unless it lost one before to the ring.
   */
  lemma OldEventsAreIngested(actions: seq<FeedAction>, f: Feed, i: nat, k: nat)
    requires FeedRun(EMPTY_FEED, actions, f) && !f.gap && i in f.delivered && i < |f.pushes|
    requires f.pushes[i].base <= k < |f.sys.audit.history|
    requires f.sys.audit.history[k].at + FIRST_RESTART_WITHHOLD_MAX_SEC <= f.pushes[i].at
    ensures k < |f.ingested| && f.ingested[k] == f.sys.audit.history[k]
  {
    EveryEventExactlyOnce(actions, f);
    assert PushOk(f.pushes[i], f.sys.audit.history);
    assert f.pushes[i].events != [];
  }
}
