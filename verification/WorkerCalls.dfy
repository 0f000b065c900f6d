/**
 Calls to one supervised pack worker (agent/agent_app/pack/worker_supervisor.py): the handle's
 request table against responses, deadlines, crashes, restarts and shutdown. Every stretch of code
 between two awaits is one step.
 */
module WorkerCalls {
  import opened Options

  type Id = nat
  type Proc = nat

  /** A request's future: it is resolved by an answer, by a failure of the worker, or cancelled by its caller. */
  datatype Future = Open | Answered(proc: Proc) | Failed | Cancelled

  /** A coroutine that brings a worker process up. */
  datatype Spawner = Idle | Delaying | Spawning | Handshaking(proc: Proc)

  /** boot is the first start of the worker, spawner its one restart task. */
  datatype Handle = Handle(
    alive: bool,
    process: Option<Proc>,
    pending: set<Id>,
    nextId: Id,
    shuttingDown: bool,
    boot: Spawner,
    spawner: Spawner,
    futures: map<Id, Future>)

  /**
   callers: calls not yet returned; written: every (process, id) ever written, never taken back;
   sentTo: the process the request now known by an id was written to; resolved: how often each
   future was resolved; readers: processes whose output is still read; stopping: failure handlers
   waiting for a process to exit.
   */
  datatype System = System(
    h: Handle,
    callers: set<Id>,
    written: set<(Proc, Id)>,
    sentTo: map<Id, Proc>,
    resolved: map<Id, nat>,
    readers: set<Proc>,
    nextProc: Proc,
    stopping: nat)

  datatype Action = Call
                  | CallBreaks(id: Id)
                  | CallTimesOut(id: Id)
                  | CallCancelled(id: Id)
                  | CallReturns(id: Id)
                  | Response(proc: Proc, id: Id)
                  | ReaderEnds(proc: Proc)
                  | ProcessStopped
                  | BootSpawns
                  | BootReady
                  | BootFails
                  | BootCancelled
                  | SpawnerWakes
                  | SpawnerSpawns
                  | SpawnerReady
                  | SpawnerFails(again: bool)
                  | SpawnerCancelled
                  | ShutdownBegins
                  | ShutdownFinishes

  const INITIAL := System(Handle(false, None, {}, 1, false, Spawning, Idle, map[]), {}, {}, map[], map[], {}, 0, 0)

  /**
   Shutdown cancels the restart task in the region that sets its flag, so the task's next step is
   its cancellation.
   */
  predicate Enabled(s: System, a: Action) {
    match a
    case Call => s.h.alive && s.h.process.Some?
    case CallBreaks(id) => id in s.callers && id in s.h.futures
    case CallTimesOut(id) => id in s.callers && id in s.h.futures && s.h.futures[id].Open?
    case CallCancelled(id) => id in s.callers && id in s.h.futures
    case CallReturns(id) => id in s.callers && id in s.h.futures && !s.h.futures[id].Open?
    case Response(proc, id) => proc in s.readers && (proc, id) in s.written
    case ReaderEnds(proc) => proc in s.readers
    case ProcessStopped => s.stopping > 0
    case BootSpawns => s.h.boot.Spawning?
    case BootReady => s.h.boot.Handshaking?
    case BootFails => s.h.boot.Spawning? || s.h.boot.Handshaking?
    case BootCancelled => !s.h.boot.Idle?
    case SpawnerWakes => !s.h.shuttingDown && s.h.spawner.Delaying?
    case SpawnerSpawns => !s.h.shuttingDown && s.h.spawner.Spawning?
    case SpawnerReady => !s.h.shuttingDown && s.h.spawner.Handshaking?
    case SpawnerFails(again) => !s.h.shuttingDown && (s.h.spawner.Spawning? || s.h.spawner.Handshaking?)
    case SpawnerCancelled => s.h.shuttingDown && !s.h.spawner.Idle?
    case ShutdownBegins => true
    case ShutdownFinishes => s.h.shuttingDown && s.h.spawner.Idle?
  }

  // The handle's operations.

  function NewRequest(h: Handle): (r: Handle) {
    h.(pending := h.pending + {h.nextId}, nextId := h.nextId + 1, futures := h.futures[h.nextId := Open])
  }

  function Forget(h: Handle, id: Id): (r: Handle) {
    h.(pending := h.pending - {id})
  }

  /** The requests a failure of the worker resolves: still pending and not yet resolved. */
  function Stranded(h: Handle): (r: set<Id>) {
    set id | id in h.pending && id in h.futures && h.futures[id].Open?
  }

  function FailPending(h: Handle): (r: Handle) {
    h.(pending := {}, futures := map id | id in h.futures :: if id in Stranded(h) then Failed else h.futures[id])
  }

  /** The worker is given up: nothing is pending and its process is let go. */
  function GiveUp(h: Handle): (r: Handle) {
    FailPending(h.(alive := false)).(process := None)
  }

  function Deliver(h: Handle, proc: Proc, id: Id): (r: Handle) {
    if id in h.pending && id in h.futures && h.futures[id].Open? then h.(futures := h.futures[id := Answered(proc)])
       else h
  }

  function Schedule(h: Handle): (r: Handle) {
    if !h.shuttingDown && h.spawner.Idle? then h.(spawner := Delaying) else h
  }

  // The steps.

  function Bump(resolved: map<Id, nat>, ids: set<Id>): (r: map<Id, nat>) {
    map id | id in resolved :: if id in ids then resolved[id] + 1 else resolved[id]
  }

  function Abandon(s: System): (r: System) {
    s.(h := GiveUp(s.h), resolved := Bump(s.resolved, Stranded(s.h)))
  }

  /** A failure is handled once, while the handle is alive and not shutting down. */
  function Fails(s: System): (r: System) {
    if s.h.shuttingDown || !s.h.alive then s else Abandon(s).(stopping := s.stopping + 1)
  }

  function Killed(s: System): (r: System) {
    if !s.h.alive then s else Abandon(s).(stopping := s.stopping + 1)
  }

  /** The caller gives up its future, unless it was resolved already. */
  function Relinquish(s: System, id: Id): (r: System) {
    if id in s.h.futures && s.h.futures[id].Open? then
      s.(h := s.h.(futures := s.h.futures[id := Cancelled]), resolved := Bump(s.resolved, {id}))
    else s
  }

  /** The call is over and its entry gone. */
  function Left(s: System, id: Id): (r: System) {
    s.(h := Forget(s.h, id), callers := s.callers - {id})
  }

  function Apply(s: System, a: Action): (r: System)
    requires Enabled(s, a)
  {
    match a
    case Call =>
      s.(h := NewRequest(s.h), callers := s.callers + {s.h.nextId},
         written := s.written + {(s.h.process.value, s.h.nextId)},
         sentTo := s.sentTo[s.h.nextId := s.h.process.value], resolved := s.resolved[s.h.nextId := 0])
    case CallBreaks(id) => Fails(Left(s, id))
    case CallTimesOut(id) => Killed(Left(Relinquish(s, id), id))
    case CallCancelled(id) => Left(Relinquish(s, id), id)
    case CallReturns(id) => Left(s, id)
    case Response(proc, id) =>
      if id in s.h.pending && id in s.h.futures && s.h.futures[id].Open?
      then s.(h := Deliver(s.h, proc, id), resolved := Bump(s.resolved, {id}))
      else s
    case ReaderEnds(proc) => Fails(s.(readers := s.readers - {proc}))
    case ProcessStopped =>
      s.(h := Schedule(s.h), stopping := s.stopping - 1)
    case BootSpawns =>
      s.(h := s.h.(boot := Handshaking(s.nextProc), process := Some(s.nextProc)), nextProc := s.nextProc + 1)
    case BootReady => s.(h := s.h.(boot := Idle, alive := true), readers := s.readers + {s.h.boot.proc})
    case BootFails => s.(h := s.h.(boot := Idle, process := if s.h.boot.Handshaking? then None else s.h.process))
    case BootCancelled => s.(h := s.h.(boot := Idle))
    case SpawnerWakes => s.(h := s.h.(spawner := Spawning))
    case SpawnerSpawns =>
      s.(h := s.h.(spawner := Handshaking(s.nextProc), process := Some(s.nextProc)), nextProc := s.nextProc + 1)
    case SpawnerReady =>
      s.(h := s.h.(spawner := Idle, alive := true), readers := s.readers + {s.h.spawner.proc})
    case SpawnerFails(again) =>
      s.(h := s.h.(spawner := if again then Delaying else Idle, alive := false,
                   process := if s.h.spawner.Handshaking? then None else s.h.process))
    case SpawnerCancelled => s.(h := s.h.(spawner := Idle))
    case ShutdownBegins => s.(h := s.h.(shuttingDown := true))
    case ShutdownFinishes => Abandon(s)
  }

  ghost predicate IsRun(s: System, actions: seq<Action>, r: System)
    decreases |actions|
  {
    if actions == [] then r == s
    else Enabled(s, actions[0]) && IsRun(Apply(s, actions[0]), actions[1..], r)
  }

  ghost predicate Reachable(s: System) {
    exists actions :: IsRun(INITIAL, actions, s)
  }

  // What every reachable state satisfies.

  predicate TablesOk(h: Handle, sentTo: map<Id, Proc>, resolved: map<Id, nat>) {
    && h.futures.Keys == sentTo.Keys == resolved.Keys
    && h.pending <= h.futures.Keys
    && (forall id :: id in h.futures ==> id < h.nextId)
  }

  /** A future is resolved at most once, and by an answer only from the process it was sent to. */
  predicate FuturesOk(futures: map<Id, Future>, sentTo: map<Id, Proc>, resolved: map<Id, nat>) {
    forall id :: id in futures && id in sentTo && id in resolved ==>
                   && resolved[id] == (if futures[id].Open? then 0 else 1)
                   && (futures[id].Answered? ==> futures[id].proc == sentTo[id])
  }

  /** No id was ever written to two processes. */
  predicate WrittenOk(written: set<(Proc, Id)>, sentTo: map<Id, Proc>) {
    forall w :: w in written ==> w.1 in sentTo && sentTo[w.1] == w.0
  }

  /** At most one of: the worker is up, someone waits for its process to exit, someone brings it up. */
  predicate PhaseOk(alive: bool, boot: Spawner, spawner: Spawner, stopping: nat) {
    && (alive ==> boot.Idle? && spawner.Idle? && stopping == 0)
    && (stopping > 0 ==> boot.Idle? && spawner.Idle? && stopping == 1)
    && (!boot.Idle? ==> spawner.Idle? && !boot.Delaying?)
  }

  predicate Inv(s: System) {
    && TablesOk(s.h, s.sentTo, s.resolved)
    && FuturesOk(s.h.futures, s.sentTo, s.resolved)
    && WrittenOk(s.written, s.sentTo)
    && PhaseOk(s.h.alive, s.h.boot, s.h.spawner, s.stopping)
    && (!s.h.alive ==> s.h.pending == {})
  }

  lemma AbandonKeeps(s: System)
    requires TablesOk(s.h, s.sentTo, s.resolved) && FuturesOk(s.h.futures, s.sentTo, s.resolved)
    ensures var r := Abandon(s);
            TablesOk(r.h, r.sentTo, r.resolved) && FuturesOk(r.h.futures, r.sentTo, r.resolved)
  {
  }

  lemma RelinquishKeeps(s: System, id: Id)
    requires Inv(s)
    ensures Inv(Relinquish(s, id))
  {
  }

  lemma FailsKeeps(s: System)
    requires Inv(s)
    ensures Inv(Fails(s)) && Inv(Killed(s))
  {
    AbandonKeeps(s);
    hide TablesOk;
    hide FuturesOk;
  }

  lemma CallKeeps(s: System)
    requires Inv(s) && Enabled(s, Call)
    ensures Inv(Apply(s, Call))
  {
  }

  lemma ResponseKeeps(s: System, proc: Proc, id: Id)
    requires Inv(s) && Enabled(s, Response(proc, id))
    ensures Inv(Apply(s, Response(proc, id)))
  {
    assert (proc, id).1 in s.sentTo && s.sentTo[id] == proc;
    hide WrittenOk;
  }

  /** Steps of the processes around the request table. */
  lemma AroundKeeps(s: System, a: Action)
    requires Inv(s) && Enabled(s, a)
    requires a.ProcessStopped? || a.BootSpawns? || a.BootReady? || a.BootFails? || a.BootCancelled?
             || a.SpawnerWakes? || a.SpawnerSpawns?
             || a.SpawnerReady? || a.SpawnerFails? || a.SpawnerCancelled? || a.ShutdownBegins?
    ensures Inv(Apply(s, a))
  {
    hide FuturesOk;
    hide WrittenOk;
  }

  lemma StepKeeps(s: System, a: Action)
    requires Inv(s) && Enabled(s, a)
    ensures Inv(Apply(s, a))
  {
    match a
    case Call => CallKeeps(s);
    case CallBreaks(id) => FailsKeeps(Left(s, id)) by { hide FuturesOk; hide WrittenOk; }
    case CallTimesOut(id) =>
      RelinquishKeeps(s, id);
      FailsKeeps(Left(Relinquish(s, id), id)) by { hide FuturesOk; hide WrittenOk; }
    case CallCancelled(id) => RelinquishKeeps(s, id); hide FuturesOk; hide WrittenOk;
    case CallReturns(_) => hide FuturesOk; hide WrittenOk;
    case Response(proc, id) => ResponseKeeps(s, proc, id);
    case ReaderEnds(proc) => FailsKeeps(s.(readers := s.readers - {proc}));
    case ShutdownFinishes => AbandonKeeps(s); hide FuturesOk; hide WrittenOk; hide TablesOk;
    case _ => AroundKeeps(s, a);
  }

  lemma {:induction false} RunKeeps(s: System, actions: seq<Action>, r: System)
    requires Inv(s) && IsRun(s, actions, r)
    ensures Inv(r)
    decreases |actions|
  {
    if actions != [] {
      StepKeeps(s, actions[0]);
      RunKeeps(Apply(s, actions[0]), actions[1..], r);
    }
  }

  lemma ReachableInv(s: System)
    requires Reachable(s)
    ensures Inv(s)
  {
    var actions :| IsRun(INITIAL, actions, s);
    RunKeeps(INITIAL, actions, s);
  }

  /** A handle that is not alive has no pending request. */
  lemma DeadHasNoPending(s: System)
    requires Reachable(s) && !s.h.alive
    ensures s.h.pending == {}
  {
    ReachableInv(s);
  }

  /**
   Although a process may answer anything ever written to it, as often and as late as it likes, an
   answered request was answered by the process it was written to, and by no other could it be.
   */
  lemma AnswersAreOwn(s: System, id: Id)
    requires Reachable(s) && id in s.h.futures && s.h.futures[id].Answered?
    ensures id in s.sentTo && s.h.futures[id].proc == s.sentTo[id]
    ensures forall proc :: (proc, id) in s.written ==> proc == s.h.futures[id].proc
  {
    ReachableInv(s);
    assert forall proc :: (proc, id) in s.written ==> (proc, id).1 in s.sentTo && s.sentTo[id] == proc;
  }

  /**
   Once shutdown has begun, with or without a restart under way, no run schedules or advances one,
   and unless the first start is still to spawn, no process is spawned again. A handle that is dead
   with its first start over stays dead, with nothing pending.
   */
  lemma {:induction false} ShutdownIsFinal(s: System, actions: seq<Action>, r: System)
    requires Inv(s) && s.h.shuttingDown && IsRun(s, actions, r)
    ensures r.h.shuttingDown && (r.h.spawner.Idle? || r.h.spawner == s.h.spawner)
    ensures !s.h.boot.Spawning? ==> r.nextProc == s.nextProc && !r.h.boot.Spawning?
    ensures s.h.boot.Idle? ==> r.h.boot.Idle?
    ensures s.h.boot.Idle? && !s.h.alive ==> !r.h.alive && r.h.pending == {}
    decreases |actions|
  {
    if actions != [] {
      StepKeeps(s, actions[0]);
      ShutdownStep(s, actions[0]);
      hide Inv;
      hide Apply;
      hide Enabled;
      ShutdownIsFinal(Apply(s, actions[0]), actions[1..], r);
    }
  }

  lemma ShutdownStep(s: System, a: Action)
    requires Inv(s) && s.h.shuttingDown && Enabled(s, a)
    ensures var r := Apply(s, a);
            && r.h.shuttingDown && (r.h.spawner.Idle? || r.h.spawner == s.h.spawner)
            && (!s.h.boot.Spawning? ==> r.nextProc == s.nextProc && !r.h.boot.Spawning?)
            && (s.h.boot.Idle? ==> r.h.boot.Idle?)
            && (s.h.boot.Idle? && !s.h.alive ==> !r.h.alive)
  {
    hide TablesOk;
    hide FuturesOk;
    hide WrittenOk;
    hide Bump;
  }

  /** Those two conditions on the first start are exact: a start in flight is not stopped by shutdown. */
  lemma FirstStartOutlivesShutdown(s: System)
    requires Inv(s) && s.h.shuttingDown && !s.h.boot.Idle?
    ensures s.h.boot.Spawning? ==> exists actions, r :: IsRun(s, actions, r) && r.nextProc > s.nextProc
    ensures exists actions, r :: IsRun(s, actions, r) && r.h.alive
  {
    if s.h.boot.Spawning? {
      var r := Apply(s, BootSpawns);
      assert [BootSpawns][1..] == [] && IsRun(s, [BootSpawns], r);
      var up := Apply(r, BootReady);
      assert [BootReady][1..] == [] && IsRun(r, [BootReady], up);
      assert [BootSpawns, BootReady][1..] == [BootReady];
      assert IsRun(s, [BootSpawns, BootReady], up);
    } else {
      var up := Apply(s, BootReady);
      assert [BootReady][1..] == [] && IsRun(s, [BootReady], up);
    }
  }

  /** Such a state is reached at once: shutdown begins before the first process is spawned, and the handle comes up. */
  lemma ShutdownDuringFirstStart() returns (s: System, r: System)
    ensures Reachable(s) && s.h.shuttingDown && s.h.boot.Spawning?
    ensures Reachable(r) && r.h.shuttingDown && r.h.alive && r.nextProc > s.nextProc
  {
    s := Apply(INITIAL, ShutdownBegins);
    var spawned := Apply(s, BootSpawns);
    r := Apply(spawned, BootReady);
    assert [ShutdownBegins][1..] == [] && IsRun(INITIAL, [ShutdownBegins], s);
    assert [BootReady][1..] == [] && IsRun(spawned, [BootReady], r);
    assert [BootSpawns, BootReady][1..] == [BootReady] && IsRun(s, [BootSpawns, BootReady], r);
    assert [ShutdownBegins, BootSpawns, BootReady][1..] == [BootSpawns, BootReady];
    assert IsRun(INITIAL, [ShutdownBegins, BootSpawns, BootReady], r);
  }

  /** Where the first start is cancelled together with the shutdown, as the agent does, shutdown is final. */
  lemma CancelledFirstStartIsFinal(s: System, actions: seq<Action>, r: System)
    requires Inv(s) && s.h.shuttingDown && !s.h.boot.Idle? && IsRun(Apply(s, BootCancelled), actions, r)
    ensures r.nextProc == s.nextProc && !r.h.alive && r.h.pending == {} && r.h.spawner.Idle?
  {
    StepKeeps(s, BootCancelled);
    ShutdownIsFinal(Apply(s, BootCancelled), actions, r);
  }

  /** Whatever ends the worker's life resolves every call pending at that moment, each exactly once. */
  lemma DeathResolvesPending(s: System, a: Action, id: Id)
    requires Reachable(s) && Enabled(s, a)
    requires s.h.alive && !Apply(s, a).h.alive && id in s.h.pending
    requires a != CallBreaks(id)
    ensures var r := Apply(s, a);
            && id in r.h.futures && !r.h.futures[id].Open? && id !in r.h.pending
            && id in r.resolved && r.resolved[id] == 1
  {
    ReachableInv(s);
    StepKeeps(s, a);
    assert id in s.h.futures;
  }

  predicate Grown(s: System, r: System) {
    && s.h.nextId <= r.h.nextId
    && (forall id :: id in s.h.futures ==>
                       && id in r.h.futures && id in s.sentTo && id in r.sentTo && r.sentTo[id] == s.sentTo[id]
                       && (!s.h.futures[id].Open? ==> r.h.futures[id] == s.h.futures[id]))
  }

  lemma StepGrows(s: System, a: Action)
    requires Inv(s) && Enabled(s, a)
    ensures Grown(s, Apply(s, a))
  {
    hide FuturesOk;
    hide WrittenOk;
    hide PhaseOk;
    hide Bump;
  }

  /**
   Request ids outlive the worker: through any number of restarts an id keeps its own request, is
   never given out again, and its future, once resolved, never changes.
   */
  lemma {:induction false} IdsAreNeverReused(s: System, actions: seq<Action>, r: System)
    requires Inv(s) && IsRun(s, actions, r)
    ensures Grown(s, r)
    decreases |actions|
  {
    if actions != [] {
      StepGrows(s, actions[0]);
      StepKeeps(s, actions[0]);
      IdsAreNeverReused(Apply(s, actions[0]), actions[1..], r);
    }
  }

  /** The handle itself, updated in place between awaits. */
  class WorkerHandle {
    var alive: bool
    var process: Option<Proc>
    var pending: set<Id>
    var nextId: Id
    var shuttingDown: bool
    var boot: Spawner
    var spawner: Spawner
    var futures: map<Id, Future>

    function Value(): (h: Handle)
      reads this
    {
      Handle(alive, process, pending, nextId, shuttingDown, boot, spawner, futures)
    }

    constructor ()
      ensures Value() == INITIAL.h
    {
      alive, process, pending, nextId := false, None, {}, 1;
      shuttingDown, boot, spawner, futures := false, Spawning, Idle, map[];
    }

    /** The first region of a call: refused unless the worker is up. */
    method BeginCall() returns (id: Option<Id>)
      modifies this
      ensures id == if old(alive) && old(process).Some? then Some(old(nextId)) else None
      ensures Value() == if id.Some? then NewRequest(old(Value())) else old(Value())
    {
      if !alive || process.None? {
        return None;
      }
      id := Some(nextId);
      nextId := nextId + 1;
      futures := futures[id.value := Open];
      pending := pending + {id.value};
    }

    method EndCall(id: Id)
      modifies this`pending
      ensures Value() == Forget(old(Value()), id)
    {
      pending := pending - {id};
    }

    method ReadResponse(proc: Proc, id: Id)
      modifies this`futures
      ensures Value() == Deliver(old(Value()), proc, id)
    {
      if id in pending && id in futures && futures[id].Open? {
        futures := futures[id := Answered(proc)];
      }
    }

    method FailAllPending()
      modifies this
      ensures Value() == FailPending(old(Value()))
    {
      var left := pending;
      ghost var was := futures;
      while left != {}
        invariant left <= pending && futures.Keys == was.Keys
        invariant alive == old(alive) && process == old(process) && pending == old(pending) && nextId == old(nextId)
        invariant shuttingDown == old(shuttingDown) && boot == old(boot) && spawner == old(spawner)
        invariant forall id :: id in was ==>
                                 futures[id] == if id in pending && id !in left && was[id].Open? then Failed
                                     else was[id]
        decreases left
      {
        var id :| id in left;
        left := left - {id};
        if id in futures && futures[id].Open? {
          futures := futures[id := Failed];
        }
      }
      pending := {};
      assert futures == FailPending(old(Value())).futures;
    }

    /** A crash seen by the reader or by a broken pipe, up to the wait for the process. */
    method HandleFailure() returns (handled: bool)
      modifies this
      ensures handled == (!old(shuttingDown) && old(alive))
      ensures Value() == if handled then GiveUp(old(Value())) else old(Value())
    {
      if shuttingDown || !alive {
        return false;
      }
      alive := false;
      FailAllPending();
      process := None;
      handled := true;
    }

    /** A hook past its deadline, up to the wait for the process. */
    method KillForTimeout() returns (handled: bool)
      modifies this
      ensures handled == old(alive)
      ensures Value() == if handled then GiveUp(old(Value())) else old(Value())
    {
      if !alive {
        return false;
      }
      alive := false;
      FailAllPending();
      process := None;
      handled := true;
    }

    method ScheduleRestart()
      modifies this`spawner
      ensures Value() == Schedule(old(Value()))
    {
      if shuttingDown {
        return;
      }
      if spawner.Idle? {
        spawner := Delaying;
      }
    }

    /** The last region of a shutdown, once the restart task is gone. */
    method FinishShutdown()
      modifies this
      ensures Value() == GiveUp(old(Value()))
    {
      alive := false;
      FailAllPending();
      process := None;
    }
  }
}
