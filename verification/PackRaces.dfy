/**
 Node starts interleaved with the pack state loop. Every await of the pass (each install, each
 adapter load, each worker shutdown of the reap) and of a start (between resolving its worker and
 revalidating it under the start lock) is a point where any other step may happen. The loop object may
 crash and be rebuilt at any time: the registries outlive it, its desired list does not.
 */
module PackRaces {
  import opened Options
  import opened Packs

  type Port = nat
  type StartId = nat

  /** A start holds the release and worker it resolved first, through hooks and the lock. */
  datatype Start = Start(pack: PackId, requested: Option<Release>, release: Release, worker: Option<Handle>)

  datatype Spec = Spec(pack: PackId, release: Release, worker: Option<Handle>)

  /** listKnown: the desired list was known when the start was revalidated. */
  datatype Spawn = Spawn(requested: Option<Release>, spec: Spec, env: Env, stamp: Option<Release>, listKnown: bool)

  /** next indexes the packs being visited; installed says the next pack's runtime is registered. */
  datatype Pass = Idle
                | Visiting(packs: seq<DesiredPack>, next: nat, installed: bool)
                | Reaping(packs: seq<DesiredPack>, keys: set<Key>, retained: set<Key>)

  /** entries: the status rows since the last fetch; spawns: every spawn so far. */
  datatype System = System(
    reg: Registries,
    latest: Option<seq<DesiredPack>>,
    pass: Pass,
    entries: seq<Entry>,
    starts: map<StartId, Start>,
    specs: map<Port, Spec>,
    spawns: seq<Spawn>)

  datatype Action = Fetch(packs: seq<DesiredPack>)
                  | Skip(reason: Reason)
                  | Install(env: Env)
                  | Report(load: Load)
                  | BeginReap
                  | ReapOne(key: Key)
                  | EndPass
                  | Abort
                  | LoopRestarts
                  | WorkerTurns(key: Key, alive: bool)
                  | Resolve(id: StartId, pack: PackId, requested: Option<Release>)
                  | Commit(id: StartId, port: Port)
                  | GiveUp(id: StartId)
                  | Unpin(port: Port)

  const INITIAL := System(EMPTY, None, Idle, [], map[], map[], [])

  predicate AtPack(s: System, installed: bool) {
    s.pass.Visiting? && s.pass.installed == installed && s.pass.next < |Visited(s.pass.packs)|
  }

  function Head(s: System): (r: DesiredPack)
    requires s.pass.Visiting? && s.pass.next < |Visited(s.pass.packs)|
  {
    Visited(s.pass.packs)[s.pass.next]
  }

  predicate Enabled(s: System, a: Action) {
    match a
    case Fetch(packs) => s.pass.Idle?
    case Skip(reason) => AtPack(s, false) && (reason.ResolverBlocked? || reason.RuntimeBlocked?)
    case Install(env) => AtPack(s, false) && env.builtFor == Head(s).release
    case Report(load) => AtPack(s, true)
    case BeginReap => s.pass.Visiting? && s.pass.next >= |Visited(s.pass.packs)|
    case ReapOne(key) => s.pass.Reaping? && key in s.pass.keys
    case EndPass => s.pass.Reaping? && s.pass.keys == {}
    case Abort => !s.pass.Idle?
    case LoopRestarts => true
    case WorkerTurns(key, alive) => key in s.reg.adapters.byKey
    case Resolve(id, pack, requested) => id !in s.starts
    case Commit(id, port) => id in s.starts
    case GiveUp(id) => id in s.starts
    case Unpin(port) => port in s.specs
  }

  function Retained(specs: map<Port, Spec>): (r: set<Key>) {
    set port | port in specs :: (specs[port].pack, specs[port].release)
  }

  function Reported(s: System, load: Load): (r: System)
    requires AtPack(s, true)
  {
    var p := Head(s);
    var adapters := if WantsLoad(p, s.reg.adapters) then LoadAdapter(p, s.reg.adapters, load) else s.reg.adapters;
    var runtimeId := if p.id in s.reg.runtimes.envs then Some(s.reg.runtimes.envs[p.id].runtimeId) else None;
    s.(reg := s.reg.(adapters := adapters),
       entries := s.entries + [Entry(p.id, p.release, runtimeId, StatusOf(p, adapters))],
       pass := Visiting(s.pass.packs, s.pass.next + 1, false))
  }

  function Skipped(s: System, reason: Reason): (r: System)
    requires AtPack(s, false)
  {
    s.(entries := s.entries + [Entry(Head(s).id, Head(s).release, None, Blocked(reason))],
       pass := Visiting(s.pass.packs, s.pass.next + 1, false))
  }

  function Reaped(s: System, key: Key): (r: System)
    requires s.pass.Reaping?
  {
    var pass := s.pass.(keys := s.pass.keys - {key});
    if key in DesiredKeys(s.pass.packs) || key in s.pass.retained then s.(pass := pass)
    else s.(pass := pass, reg := s.reg.(adapters := RemoveHandle(s.reg.adapters, key)))
  }

  /** A worker dies or comes back under its supervisor; the handle stays registered. */
  function Turned(a: Adapters, key: Key, alive: bool): (r: Adapters)
    requires key in a.byKey
  {
    a.(byKey := a.byKey[key := a.byKey[key].(alive := alive)])
  }

  function Resolved(s: System, id: StartId, pack: PackId, requested: Option<Release>): (r: System) {
    match ResolveWorker(s.latest, s.reg, pack, requested)
    case Deferred(_) => s
    case Cleared(release, worker) => s.(starts := s.starts[id := Start(pack, requested, release, worker)])
  }

  /** Revalidate, pin the spec and read the runtime: no await in between. */
  function Committed(s: System, id: StartId, port: Port): (r: System)
    requires id in s.starts
  {
    var start := s.starts[id];
    var left := s.(starts := s.starts - {id});
    match ResolveWorker(s.latest, s.reg, start.pack, start.requested)
    case Deferred(_) => left
    case Cleared(release, worker) =>
      if release != start.release || worker.None? != start.worker.None? then left
      else Pinned(left, start, port)
  }

  function Pinned(s: System, start: Start, port: Port): (r: System) {
    var spec := Spec(start.pack, start.release, start.worker);
    var pinned := s.(specs := s.specs[port := spec]);
    if start.pack !in s.reg.runtimes.envs then pinned
    else
      pinned.(spawns := s.spawns + [Spawn(start.requested, spec, s.reg.runtimes.envs[start.pack],
                                          StampOf(s.reg.runtimes, start.pack), s.latest.Some?)])
  }

  function Apply(s: System, a: Action): (r: System)
    requires Enabled(s, a)
  {
    match a
    case Fetch(packs) => s.(latest := Some(packs), pass := Visiting(packs, 0, false), entries := [])
    case Skip(reason) => Skipped(s, reason)
    case Install(env) =>
      s.(reg := s.reg.(runtimes := SetEnv(s.reg.runtimes, Head(s).id, env, Some(Head(s).release))),
         pass := s.pass.(installed := true))
    case Report(load) => Reported(s, load)
    case BeginReap =>
      s.(reg := s.reg.(runtimes := PurgeRuntimes(s.reg.runtimes, PackIds(s.pass.packs))),
         pass := Reaping(s.pass.packs, s.reg.adapters.byKey.Keys, Retained(s.specs)))
    case ReapOne(key) => Reaped(s, key)
    case EndPass =>
      s.(reg := s.reg.(adapters := PurgeAdapterless(s.reg.adapters, DesiredKeys(s.pass.packs))), pass := Idle)
    case Abort => s.(pass := Idle)
    case LoopRestarts => s.(latest := None, pass := Idle, entries := [])
    case WorkerTurns(key, alive) =>
      s.(reg := s.reg.(adapters := Turned(s.reg.adapters, key, alive)))
    case Resolve(id, pack, requested) => Resolved(s, id, pack, requested)
    case Commit(id, port) => Committed(s, id, port)
    case GiveUp(id) => s.(starts := s.starts - {id})
    case Unpin(port) => s.(specs := s.specs - {port})
  }

  ghost predicate IsRun(s: System, actions: seq<Action>, r: System)
    decreases |actions|
  {
    if actions == [] then r == s
    else Enabled(s, actions[0]) && IsRun(Apply(s, actions[0]), actions[1..], r)
  }

  ghost predicate Reachable(s: System) {
    exists actions :: IsRun(INITIAL, actions, s)
  }

  // What every reachable state satisfies.

  predicate AdaptersOk(a: Adapters) {
    forall key :: key in a.byKey ==> a.byKey[key].release == key.1
  }

  predicate RuntimesOk(r: Runtimes) {
    && r.envs.Keys == r.stamps.Keys
    && (forall id :: id in r.stamps ==> r.envs[id].builtFor == r.stamps[id])
  }

  /** A pass under way works on the list the gate reads. */
  predicate LatestOk(latest: Option<seq<DesiredPack>>, pass: Pass) {
    !pass.Idle? ==> latest == Some(pass.packs)
  }

  predicate StartOk(start: Start) {
    && (start.requested.Some? ==> start.requested.value == start.release)
    && (start.worker.Some? ==> start.worker.value.release == start.release)
  }

  predicate StartsOk(starts: map<StartId, Start>) {
    forall id :: id in starts ==> StartOk(starts[id])
  }

  /** A spec bound to a worker finds it in the registry, and no reap under way will take it. */
  predicate PinsOk(specs: map<Port, Spec>, pass: Pass, byKey: map<Key, Handle>) {
    forall port :: port in specs && specs[port].worker.Some? ==>
                     var key := (specs[port].pack, specs[port].release);
                     && key in byKey
                     && (pass.Reaping? ==> key in DesiredKeys(pass.packs) || key in pass.retained)
  }

  /** All the releases that meet in one spawn are the same release. */
  predicate Coherent(spawn: Spawn) {
    && (spawn.requested.Some? ==> spawn.requested.value == spawn.spec.release)
    && spawn.stamp == Some(spawn.spec.release)
    && spawn.env.builtFor == spawn.spec.release
    && (spawn.spec.worker.Some? ==> spawn.spec.worker.value.release == spawn.spec.release)
  }

  /** What holds of every spawn; with the list known, the runtime is that of the pinned release. */
  predicate SpawnOk(spawn: Spawn) {
    && StartOk(Start(spawn.spec.pack, spawn.requested, spawn.spec.release, spawn.spec.worker))
    && spawn.stamp == Some(spawn.env.builtFor)
    && (spawn.listKnown ==> spawn.env.builtFor == spawn.spec.release)
    && (!spawn.listKnown ==> spawn.spec.worker.Some?)
  }

  predicate SpawnsOk(spawns: seq<Spawn>) {
    forall i :: 0 <= i < |spawns| ==> SpawnOk(spawns[i])
  }

  predicate Inv(s: System) {
    && AdaptersOk(s.reg.adapters)
    && RuntimesOk(s.reg.runtimes)
    && LatestOk(s.latest, s.pass)
    && StartsOk(s.starts)
    && PinsOk(s.specs, s.pass, s.reg.adapters.byKey)
    && SpawnsOk(s.spawns)
  }

  /**
   A cleared gate names a worker of the release it names, and one still registered. With the list known
   it also names the release the runtime was built for, and a worker the reap keeps; with the list
   unknown it names the current worker, whatever the runtime.
   */
  lemma GateIsCoherent(s: System, pack: PackId, requested: Option<Release>)
    requires Inv(s) && ResolveWorker(s.latest, s.reg, pack, requested).Cleared?
    ensures var gate := ResolveWorker(s.latest, s.reg, pack, requested);
            && StartOk(Start(pack, requested, gate.release, gate.worker))
            && (gate.worker.Some? ==> (pack, gate.release) in s.reg.adapters.byKey)
            && (s.latest.Some? ==>
                  && StampOf(s.reg.runtimes, pack) == Some(gate.release)
                  && pack in s.reg.runtimes.envs && s.reg.runtimes.envs[pack].builtFor == gate.release
                  && (gate.worker.Some? ==> (pack, gate.release) in DesiredKeys(s.latest.value)))
            && (s.latest.None? ==> gate.worker.Some? && gate.worker == CurrentHandle(s.reg.adapters, pack))
  {
    if s.latest.Some? {
      var p := FirstWithId(s.latest.value, pack).value;
      assert p in s.latest.value && KeyOf(p) == (pack, p.release);
    }
  }

  lemma ResolveKeeps(s: System, id: StartId, pack: PackId, requested: Option<Release>)
    requires Inv(s)
    ensures Inv(Resolved(s, id, pack, requested))
  {
    if ResolveWorker(s.latest, s.reg, pack, requested).Cleared? {
      GateIsCoherent(s, pack, requested);
    }
  }

  lemma PinKeeps(s: System, start: Start, port: Port, gate: Gate)
    requires Inv(s) && StartOk(start)
    requires gate == ResolveWorker(s.latest, s.reg, start.pack, start.requested)
    requires gate.Cleared? && gate.release == start.release && gate.worker.None? == start.worker.None?
    ensures Inv(Pinned(s, start, port))
  {
    GateIsCoherent(s, start.pack, start.requested);
    hide ResolveWorker;
    hide DesiredKeys;
    var r := Pinned(s, start, port);
    assert SpawnsOk(r.spawns);
    assert PinsOk(r.specs, r.pass, r.reg.adapters.byKey);
  }

  lemma CommitKeeps(s: System, id: StartId, port: Port)
    requires Inv(s) && id in s.starts
    ensures Inv(Committed(s, id, port))
  {
    var start := s.starts[id];
    var gate := ResolveWorker(s.latest, s.reg, start.pack, start.requested);
    var left := s.(starts := s.starts - {id});
    if gate.Cleared? && gate.release == start.release && gate.worker.None? == start.worker.None? {
      PinKeeps(left, start, port, gate);
    }
  }

  lemma ReportKeeps(s: System, load: Load)
    requires Inv(s) && AtPack(s, true)
    ensures Inv(Reported(s, load))
  {
    hide Visited;
    hide StatusOf;
  }

  lemma BeginReapKeeps(s: System)
    requires Inv(s) && Enabled(s, BeginReap)
    ensures Inv(Apply(s, BeginReap))
  {
    hide Visited;
    hide DesiredKeys;
  }

  lemma ReapKeeps(s: System, key: Key)
    requires Inv(s) && Enabled(s, ReapOne(key))
    ensures Inv(Reaped(s, key))
  {
    hide DesiredKeys;
  }

  lemma SetEnvKeeps(r: Runtimes, id: PackId, env: Env)
    requires RuntimesOk(r)
    ensures RuntimesOk(SetEnv(r, id, env, Some(env.builtFor)))
  {
  }

  lemma InstallKeeps(s: System, env: Env)
    requires Inv(s) && Enabled(s, Install(env))
    ensures Inv(Apply(s, Install(env)))
  {
    SetEnvKeeps(s.reg.runtimes, Head(s).id, env);
    hide Visited;
    hide DesiredKeys;
    hide SpawnsOk;
    hide StartsOk;
    hide RuntimesOk;
    hide SetEnv;
  }

  lemma TurnKeeps(s: System, key: Key, alive: bool)
    requires Inv(s) && Enabled(s, WorkerTurns(key, alive))
    ensures Inv(Apply(s, WorkerTurns(key, alive)))
  {
    hide DesiredKeys;
    hide SpawnsOk;
    hide StartsOk;
  }

  /** Steps that leave the registries alone, or only drop marks. */
  lemma PassKeeps(s: System, a: Action)
    requires Inv(s) && Enabled(s, a)
    requires a.Fetch? || a.Skip? || a.EndPass? || a.Abort? || a.LoopRestarts? || a.GiveUp? || a.Unpin?
    ensures Inv(Apply(s, a))
  {
    hide DesiredKeys;
    hide Visited;
    hide SpawnsOk;
    hide StartOk;
    hide RuntimesOk;
  }

  lemma StepKeeps(s: System, a: Action)
    requires Inv(s) && Enabled(s, a)
    ensures Inv(Apply(s, a))
  {
    hide Inv;
    match a
    case Install(env) => InstallKeeps(s, env);
    case Report(load) => ReportKeeps(s, load);
    case BeginReap => BeginReapKeeps(s);
    case ReapOne(key) => ReapKeeps(s, key);
    case WorkerTurns(key, alive) => TurnKeeps(s, key, alive);
    case Resolve(id, pack, requested) => ResolveKeeps(s, id, pack, requested);
    case Commit(id, port) => CommitKeeps(s, id, port);
    case _ => PassKeeps(s, a);
  }

  lemma {:induction false} RunKeeps(s: System, actions: seq<Action>, r: System)
    requires Inv(s) && IsRun(s, actions, r)
    ensures Inv(r)
    decreases |actions|
  {
    if actions != [] {
      StepKeeps(s, actions[0]);
      RunKeeps(Apply(s, actions[0]), actions[1..], r);
    }
  }

  lemma ReachableInv(s: System)
    requires Reachable(s)
    ensures Inv(s)
  {
    var actions :| IsRun(INITIAL, actions, s);
    RunKeeps(INITIAL, actions, s);
  }

  /**
   Whenever a spawn is reached with the list known at its revalidation, the release asked for, the one
   pinned in the launch spec, the one the runtime was built for and the one of the worker are one and
   the same. With the list unknown they are, if and only if the runtime registered was built for the
   release pinned.
   */
  lemma SpawnsAreCoherent(s: System, spawn: Spawn)
    requires Reachable(s) && spawn in s.spawns
    ensures spawn.listKnown ==> Coherent(spawn)
    ensures Coherent(spawn) <==> spawn.stamp == Some(spawn.spec.release)
  {
    ReachableInv(s);
  }

  /** A worker bound by a launch spec stays registered for as long as that spec exists. */
  lemma PinnedWorkerStays(s: System, port: Port)
    requires Reachable(s) && port in s.specs && s.specs[port].worker.Some?
    ensures (s.specs[port].pack, s.specs[port].release) in s.reg.adapters.byKey
  {
    ReachableInv(s);
  }

  // Starts while the list is unknown.

  /** The gate then clears exactly the starts the current worker can serve, whatever runtime is registered. */
  lemma UnknownListClearsIff(s: System, pack: PackId, requested: Option<Release>)
    requires Reachable(s) && s.latest.None?
    ensures ResolveWorker(s.latest, s.reg, pack, requested).Cleared? <==>
              && pack in s.reg.adapters.current && (pack, s.reg.adapters.current[pack]) in s.reg.adapters.byKey
              && (requested.Some? ==> requested.value == s.reg.adapters.current[pack])
  {
    ReachableInv(s);
  }

  /**
   A commit while the list is unknown spawns a coherent node if and only if the runtime registered for
   the pack carries the stamp of the current worker's release.
   */
  lemma UnknownListSpawnIff(s: System, id: StartId, port: Port)
    requires Reachable(s) && s.latest.None? && id in s.starts
    requires |Committed(s, id, port).spawns| > |s.spawns|
    ensures var pack := s.starts[id].pack;
            && CurrentHandle(s.reg.adapters, pack).Some?
            && (Coherent(Committed(s, id, port).spawns[|s.spawns|]) <==>
                StampOf(s.reg.runtimes, pack) == Some(CurrentHandle(s.reg.adapters, pack).value.release))
  {
    ReachableInv(s);
    CommitKeeps(s, id, port);
    var start := s.starts[id];
    GateIsCoherent(s, start.pack, start.requested);
    assert SpawnOk(Committed(s, id, port).spawns[|s.spawns|]);
  }

  lemma {:induction false} FirstLoopStaysEmpty(s: System, actions: seq<Action>, r: System)
    requires IsRun(s, actions, r) && LoopRestarts !in actions
    requires (s.latest.None? ==> s.reg.adapters.byKey == map[]) && LatestOk(s.latest, s.pass)
    ensures r.latest.None? ==> r.reg.adapters.byKey == map[]
    decreases |actions|
  {
    if actions != [] {
      FirstLoopStep(s, actions[0]);
      hide Apply;
      hide Enabled;
      FirstLoopStaysEmpty(Apply(s, actions[0]), actions[1..], r);
    }
  }

  lemma FirstLoopStep(s: System, a: Action)
    requires Enabled(s, a) && a != LoopRestarts
    requires (s.latest.None? ==> s.reg.adapters.byKey == map[]) && LatestOk(s.latest, s.pass)
    ensures var r := Apply(s, a); (r.latest.None? ==> r.reg.adapters.byKey == map[]) && LatestOk(r.latest, r.pass)
  {
    hide DesiredKeys;
    hide Visited;
    hide ResolveWorker;
  }

  /** Before the first list of the first loop object arrives no start gets through, whatever it asks for. */
  lemma UnknownListDefers(actions: seq<Action>, s: System, pack: PackId, requested: Option<Release>)
    requires IsRun(INITIAL, actions, s) && LoopRestarts !in actions && s.latest.None?
    ensures ResolveWorker(s.latest, s.reg, pack, requested) == Deferred(NotLoaded)
  {
    FirstLoopStaysEmpty(INITIAL, actions, s);
  }
}
