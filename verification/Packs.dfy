/**
 Driver packs on the agent: the desired list, the two registries, the start gate
 (agent/agent_app/appium/process.py) and the status table (agent/agent_app/pack/state.py).
 */
module Packs {
  import opened Options

  type PackId = string
  type Release = string
  type Key = (PackId, Release)

  const LIFECYCLE_ACTION := "lifecycle_action"

  datatype Declaration = Declaration(lifecycleActions: bool, hostResolution: bool)

  datatype Platform = Platform(base: Declaration, overrides: seq<Declaration>)

  datatype DesiredPack = DesiredPack(id: PackId, release: Release, tarballSha256: Option<string>,
                                     platforms: seq<Platform>)

  datatype Handle = Handle(release: Release, alive: bool, hooks: set<string>)

  /** builtFor is the release whose reconcile produced the environment. */
  datatype Env = Env(runtimeId: string, builtFor: Release)

  datatype Adapters = Adapters(byKey: map<Key, Handle>, current: map<PackId, Release>, adapterless: set<Key>)

  datatype Runtimes = Runtimes(envs: map<PackId, Env>, stamps: map<PackId, Release>)

  datatype Registries = Registries(adapters: Adapters, runtimes: Runtimes)

  const EMPTY := Registries(Adapters(map[], map[], {}), Runtimes(map[], map[]))

  // Pack declarations.

  function KeyOf(p: DesiredPack): (r: Key) {
    (p.id, p.release)
  }

  predicate HasTarball(p: DesiredPack) {
    p.tarballSha256.Some? && p.tarballSha256.value != ""
  }

  predicate HasAdapterPlatform(p: DesiredPack) {
    p.platforms != []
  }

  predicate Declares(d: Declaration) {
    d.lifecycleActions || d.hostResolution
  }

  predicate DeclaresLifecycle(p: Platform) {
    Declares(p.base) || exists i :: 0 <= i < |p.overrides| && Declares(p.overrides[i])
  }

  /** The hooks the manifest obliges the adapter to implement. */
  function DeclaredHooks(p: DesiredPack): (hooks: seq<string>)
    ensures hooks != [] ==> HasAdapterPlatform(p)
  {
    if exists i :: 0 <= i < |p.platforms| && DeclaresLifecycle(p.platforms[i]) then [LIFECYCLE_ACTION] else []
  }

  function MissingHooks(p: DesiredPack, h: Handle): (missing: seq<string>)
    ensures missing == [] <==> forall hook :: hook in DeclaredHooks(p) ==> hook in h.hooks
  {
    assert DeclaredHooks(p) != [] ==> DeclaredHooks(p)[0] in DeclaredHooks(p);
    if LIFECYCLE_ACTION in h.hooks then [] else DeclaredHooks(p)
  }

  // Registry updates.

  function SetHandle(a: Adapters, key: Key, handle: Handle): (r: Adapters) {
    Adapters(a.byKey[key := handle], a.current[key.0 := key.1], a.adapterless - {key})
  }

  function MarkAdapterless(a: Adapters, key: Key): (r: Adapters) {
    a.(adapterless := a.adapterless + {key})
  }

  function RemoveHandle(a: Adapters, key: Key): (r: Adapters) {
    Adapters(a.byKey - {key},
             if key.0 in a.current && a.current[key.0] == key.1 then a.current - {key.0} else a.current,
             a.adapterless - {key})
  }

  function PurgeAdapterless(a: Adapters, keys: set<Key>): (r: Adapters) {
    a.(adapterless := a.adapterless * keys)
  }

  function CurrentHandle(a: Adapters, id: PackId): (r: Option<Handle>) {
    if id in a.current && (id, a.current[id]) in a.byKey then Some(a.byKey[(id, a.current[id])]) else None
  }

  function SetEnv(r: Runtimes, id: PackId, env: Env, release: Option<Release>): (v: Runtimes) {
    Runtimes(r.envs[id := env], if release.Some? then r.stamps[id := release.value] else r.stamps - {id})
  }

  function PurgeRuntimes(r: Runtimes, ids: set<PackId>): (v: Runtimes) {
    var stale := r.envs.Keys - ids;
    Runtimes(r.envs - stale, r.stamps - stale)
  }

  // The start gate.

  datatype Deferral = NotLoaded | NotDesired | ReleaseMismatch | RuntimeNotInstalled | ShipsNoAdapter | Changed

  datatype Gate = Deferred(why: Deferral) | Cleared(release: Release, worker: Option<Handle>)

  function FirstWithId(packs: seq<DesiredPack>, id: PackId): (r: Option<DesiredPack>)
    ensures r.Some? ==> r.value in packs && r.value.id == id
    ensures r.None? ==> forall p :: p in packs ==> p.id != id
  {
    if packs == [] then None
    else if packs[0].id == id then Some(packs[0])
    else FirstWithId(packs[1..], id)
  }

  function StampOf(r: Runtimes, id: PackId): (v: Option<Release>) {
    if id in r.stamps then Some(r.stamps[id]) else None
  }

  predicate NeedsWorker(p: DesiredPack, a: Adapters) {
    HasTarball(p) && HasAdapterPlatform(p) && KeyOf(p) !in a.adapterless
  }

  /** With the desired list unknown, only the current worker can serve. */
  function FallbackGate(a: Adapters, id: PackId, requested: Option<Release>): (r: Gate) {
    var handle := CurrentHandle(a, id);
    if handle.None? || (requested.Some? && handle.value.release != requested.value) then Deferred(NotLoaded)
    else Cleared(handle.value.release, handle)
  }

  function DesiredGate(p: DesiredPack, reg: Registries, requested: Option<Release>): (r: Gate) {
    if requested.Some? && p.release != requested.value then Deferred(ReleaseMismatch)
    else if StampOf(reg.runtimes, p.id) != Some(p.release) then Deferred(RuntimeNotInstalled)
    else if !NeedsWorker(p, reg.adapters) then
      if DeclaredHooks(p) != [] then Deferred(ShipsNoAdapter) else Cleared(p.release, None)
    else if KeyOf(p) !in reg.adapters.byKey then Deferred(NotLoaded)
    else Cleared(p.release, Some(reg.adapters.byKey[KeyOf(p)]))
  }

  function ResolveWorker(latest: Option<seq<DesiredPack>>, reg: Registries, id: PackId,
                         requested: Option<Release>): (r: Gate) {
    match latest
    case None => FallbackGate(reg.adapters, id, requested)
    case Some(packs) =>
      var desired := FirstWithId(packs, id);
      if desired.None? then Deferred(NotDesired) else DesiredGate(desired.value, reg, requested)
  }

  // The status table.

  datatype Reason = ResolverBlocked(detail: string)
                  | RuntimeBlocked(detail: string)
                  | AdapterLoadFailed
                  | ShipsNoAdapterFor(hooks: seq<string>)
                  | WorkerUnavailable
                  | Unimplemented(hooks: seq<string>)

  datatype Status = Installed | Blocked(reason: Reason)

  datatype Entry = Entry(id: PackId, release: Release, runtimeId: Option<string>, status: Status)

  /** The verdict on a pack whose runtime is installed, after its load attempt. */
  function StatusOf(p: DesiredPack, a: Adapters): (r: Status) {
    if KeyOf(p) !in a.byKey then
      if HasAdapterPlatform(p) && HasTarball(p) && KeyOf(p) !in a.adapterless then Blocked(AdapterLoadFailed)
      else if (!HasTarball(p) || KeyOf(p) in a.adapterless) && DeclaredHooks(p) != [] then
        Blocked(ShipsNoAdapterFor(DeclaredHooks(p)))
      else Installed
    else
      var handle := a.byKey[KeyOf(p)];
      if !handle.alive then Blocked(WorkerUnavailable)
      else if MissingHooks(p, handle) != [] then Blocked(Unimplemented(MissingHooks(p, handle)))
      else Installed
  }

  datatype Load = Started(hooks: set<string>) | NoWheel | LoadFails

  /** What the pass observes of the world: resolver verdicts, runtime installs and adapter loads. */
  datatype World = World(resolver: map<PackId, string>, envs: map<PackId, Env>, errors: map<PackId, string>,
                         loads: map<Key, Load>)

  predicate WantsLoad(p: DesiredPack, a: Adapters) {
    HasAdapterPlatform(p) && KeyOf(p) !in a.byKey && KeyOf(p) !in a.adapterless
  }

  /** The loader does nothing for a pack without a tarball. */
  function LoadAdapter(p: DesiredPack, a: Adapters, load: Load): (r: Adapters) {
    if !HasTarball(p) || load.LoadFails? then a
    else if load.NoWheel? then MarkAdapterless(a, KeyOf(p))
    else SetHandle(a, KeyOf(p), Handle(p.release, true, load.hooks))
  }

  function LoadOf(w: World, key: Key): (r: Load) {
    if key in w.loads then w.loads[key] else LoadFails
  }

  function VisitPack(reg: Registries, p: DesiredPack, w: World): (r: (Registries, Entry)) {
    if p.id in w.resolver then (reg, Entry(p.id, p.release, None, Blocked(ResolverBlocked(w.resolver[p.id]))))
    else if p.id !in w.envs then
      var detail := if p.id in w.errors then w.errors[p.id] else "runtime_install_failed";
      (reg, Entry(p.id, p.release, None, Blocked(RuntimeBlocked(detail))))
    else
      var runtimes := SetEnv(reg.runtimes, p.id, w.envs[p.id], Some(p.release));
      var adapters := if WantsLoad(p, reg.adapters) then LoadAdapter(p, reg.adapters, LoadOf(w, KeyOf(p)))
                      else reg.adapters;
      (Registries(adapters, runtimes), Entry(p.id, p.release, Some(w.envs[p.id].runtimeId), StatusOf(p, adapters)))
  }

  function VisitAll(reg: Registries, packs: seq<DesiredPack>, w: World): (r: (Registries, seq<Entry>)) {
    if packs == [] then (reg, [])
    else
      var (before, entries) := VisitAll(reg, packs[..|packs| - 1], w);
      var (after, entry) := VisitPack(before, packs[|packs| - 1], w);
      (after, entries + [entry])
  }

  /** One pack per id: the position of the first occurrence, the content of the last. */
  function Ids(packs: seq<DesiredPack>): (ids: seq<PackId>)
    ensures forall i, j :: 0 <= i < j < |ids| ==> ids[i] != ids[j]
    ensures forall id :: id in ids <==> id in ById(packs)
  {
    if packs == [] then []
    else
      var p := packs[|packs| - 1];
      var rest := Ids(packs[..|packs| - 1]);
      if p.id in rest then rest else rest + [p.id]
  }

  function ById(packs: seq<DesiredPack>): (byId: map<PackId, DesiredPack>)
    ensures forall id :: id in byId <==> exists p :: p in packs && p.id == id
    ensures forall id :: id in byId ==> byId[id] in packs && byId[id].id == id
  {
    if packs == [] then map[]
    else
      var p := packs[|packs| - 1];
      assert packs == packs[..|packs| - 1] + [p];
      ById(packs[..|packs| - 1])[p.id := p]
  }

  function Visited(packs: seq<DesiredPack>): (r: seq<DesiredPack>)
    ensures |r| == |Ids(packs)|
    ensures forall i :: 0 <= i < |r| ==> r[i] in packs && r[i].id == Ids(packs)[i]
  {
    var ids := Ids(packs);
    var byId := ById(packs);
    assert forall i :: 0 <= i < |ids| ==> ids[i] in ids;
    seq(|ids|, i requires 0 <= i < |ids| => byId[ids[i]])
  }

  /** The pack visited for an id is the one last listed under it. */
  lemma VisitedIsLast(packs: seq<DesiredPack>, i: nat)
    requires i < |Visited(packs)|
    ensures Ids(packs)[i] in ById(packs) && Visited(packs)[i] == ById(packs)[Ids(packs)[i]]
  {
    assert Ids(packs)[i] in Ids(packs);
  }

  /** Keys of desired packs that ship platforms. */
  function DesiredKeys(packs: seq<DesiredPack>): (r: set<Key>) {
    set p | p in packs && HasAdapterPlatform(p) :: KeyOf(p)
  }

  function PackIds(packs: seq<DesiredPack>): (r: set<PackId>) {
    set p | p in packs :: p.id
  }

  // The two decision tables.

  /**
   Exactly when a pack that reports "installed" also clears the gate for its own release: no worker
   is loaded for it, or the gate asks for that worker, or the manifest demands no hook.
   */
  lemma InstalledClearsGateIff(p: DesiredPack, reg: Registries)
    requires StampOf(reg.runtimes, p.id) == Some(p.release)
    requires StatusOf(p, reg.adapters) == Installed
    ensures DesiredGate(p, reg, Some(p.release)).Cleared? <==>
            KeyOf(p) !in reg.adapters.byKey || NeedsWorker(p, reg.adapters) || DeclaredHooks(p) == []
  {
    if DeclaredHooks(p) != [] { assert HasAdapterPlatform(p); }
  }

  /** A deferred pack is blocked, unless a leftover worker answers for a release that ships none. */
  lemma DeferredIsBlocked(p: DesiredPack, reg: Registries)
    requires StampOf(reg.runtimes, p.id) == Some(p.release)
    requires DesiredGate(p, reg, Some(p.release)).Deferred?
    requires KeyOf(p) in reg.adapters.byKey ==> NeedsWorker(p, reg.adapters)
    ensures StatusOf(p, reg.adapters).Blocked?
  {
    if StatusOf(p, reg.adapters) == Installed { InstalledClearsGateIff(p, reg); }
  }

  /** The visit writes one row per visited pack, in order. */
  lemma {:induction false} RowsInOrder(reg: Registries, packs: seq<DesiredPack>, w: World)
    ensures var entries := VisitAll(reg, packs, w).1;
            && |entries| == |packs|
            && forall i :: 0 <= i < |packs| ==> entries[i].id == packs[i].id && entries[i].release == packs[i].release
  {
    if packs != [] {
      RowsInOrder(reg, packs[..|packs| - 1], w);
    }
  }

  predicate OnlyRow(entries: seq<Entry>, i: int, id: PackId) {
    0 <= i < |entries| && entries[i].id == id && forall j :: 0 <= j < |entries| && entries[j].id == id ==> j == i
  }

  /** Exactly one row speaks of the pack's id, and it speaks of the release last listed under it. */
  ghost predicate ReportedOnce(entries: seq<Entry>, packs: seq<DesiredPack>, p: DesiredPack) {
    p.id in ById(packs) && exists i :: OnlyRow(entries, i, p.id) && entries[i].release == ById(packs)[p.id].release
  }

  lemma RowsReportOnce(entries: seq<Entry>, packs: seq<DesiredPack>, p: DesiredPack)
    requires p in packs && |entries| == |Visited(packs)|
    requires forall i :: 0 <= i < |entries| ==>
                           entries[i].id == Visited(packs)[i].id && entries[i].release == Visited(packs)[i].release
    ensures ReportedOnce(entries, packs, p)
  {
    var ids := Ids(packs);
    assert p.id in ById(packs);
    var i :| 0 <= i < |ids| && ids[i] == p.id;
    VisitedIsLast(packs, i);
    assert entries[i].id == p.id && entries[i].release == ById(packs)[p.id].release;
    assert forall j :: 0 <= j < |entries| ==> entries[j].id == ids[j];
    assert OnlyRow(entries, i, p.id);
  }

  /** What a pass publishes: every listed id has exactly one row, for the release last listed under it. */
  lemma OneEntryPerPack(reg: Registries, packs: seq<DesiredPack>, w: World)
    ensures forall p :: p in packs ==> ReportedOnce(VisitAll(reg, Visited(packs), w).1, packs, p)
  {
    RowsInOrder(reg, Visited(packs), w);
    hide VisitAll;
    hide ReportedOnce;
    forall p | p in packs ensures ReportedOnce(VisitAll(reg, Visited(packs), w).1, packs, p) {
      RowsReportOnce(VisitAll(reg, Visited(packs), w).1, packs, p);
    }
  }
}
