/**
 The status table and the start gate agree along every run in which ids are distinct and a pack
 release keeps its content: the same key always comes with the same tarball and platforms. Along
 such runs a worker is safe from the reap while any launch spec pins its key.
 */
module PackAgreement {
  import opened Options
  import opened Packs
  import opened PackRaces
  import opened PackRows
  import opened PackPins

  /** The content of each release, fixed for the whole run. */
  type Catalog = map<Key, DesiredPack>

  predicate Faithful(catalog: Catalog, packs: seq<DesiredPack>) {
    forall p :: p in packs ==> KeyOf(p) in catalog && catalog[KeyOf(p)] == p
  }

  predicate Distinct(packs: seq<DesiredPack>) {
    forall p, q :: p in packs && q in packs && p.id == q.id ==> p == q
  }

  predicate FaithfulStep(catalog: Catalog, a: Action) {
    a.Fetch? ==> Faithful(catalog, a.packs) && Distinct(a.packs)
  }

  predicate FaithfulRun(catalog: Catalog, actions: seq<Action>) {
    forall i :: 0 <= i < |actions| ==> FaithfulStep(catalog, actions[i])
  }

  /** Only releases that ship an adapter have a worker, and none is marked adapterless as well. */
  predicate WorkersOk(catalog: Catalog, a: Adapters) {
    forall key :: key in a.byKey ==>
                    key in catalog && HasTarball(catalog[key]) && HasAdapterPlatform(catalog[key])
                        && key !in a.adapterless
  }

  predicate ListOk(catalog: Catalog, latest: Option<seq<DesiredPack>>) {
    latest.Some? ==> Faithful(catalog, latest.value) && Distinct(latest.value)
  }

  /** No reap under way will take a loaded worker whose key a launch spec pins, whether or not the spec uses it. */
  predicate KeysOk(specs: map<Port, Spec>, pass: Pass, byKey: map<Key, Handle>) {
    pass.Reaping? ==>
      forall port :: port in specs && (specs[port].pack, specs[port].release) in byKey ==>
                       var key := (specs[port].pack, specs[port].release);
                       key in DesiredKeys(pass.packs) || key in pass.retained
  }

  predicate Agrees(catalog: Catalog, s: System) {
    && Inv(s)
    && WorkersOk(catalog, s.reg.adapters)
    && ListOk(catalog, s.latest)
    && KeysOk(s.specs, s.pass, s.reg.adapters.byKey)
  }

  lemma LoadKeepsWorkers(catalog: Catalog, p: DesiredPack, a: Adapters, load: Load)
    requires WorkersOk(catalog, a) && KeyOf(p) in catalog && catalog[KeyOf(p)] == p && WantsLoad(p, a)
    ensures WorkersOk(catalog, LoadAdapter(p, a, load))
  {
  }

  lemma ReportAgrees(catalog: Catalog, s: System, load: Load)
    requires Agrees(catalog, s) && AtPack(s, true)
    ensures Agrees(catalog, Reported(s, load))
  {
    ReportKeeps(s, load);
    var p := Head(s);
    HeadIsLast(s);
    assert p in s.latest.value;
    hide Inv;
    hide Visited;
    if WantsLoad(p, s.reg.adapters) { LoadKeepsWorkers(catalog, p, s.reg.adapters, load); }
    hide WorkersOk;
    hide ListOk;
  }

  /** Along such runs a cleared gate whose worker is loaded returns that worker. */
  lemma LoadedIsBound(catalog: Catalog, s: System, pack: PackId, requested: Option<Release>)
    requires Agrees(catalog, s) && ResolveWorker(s.latest, s.reg, pack, requested).Cleared?
    requires (pack, ResolveWorker(s.latest, s.reg, pack, requested).release) in s.reg.adapters.byKey
    ensures ResolveWorker(s.latest, s.reg, pack, requested).worker.Some?
  {
    GateIsCoherent(s, pack, requested);
    if s.latest.Some? {
      var p := FirstWithId(s.latest.value, pack).value;
      assert KeyOf(p) in catalog && catalog[KeyOf(p)] == p;
    }
  }

  lemma CommitAgrees(catalog: Catalog, s: System, id: StartId, port: Port)
    requires Agrees(catalog, s) && id in s.starts
    ensures Agrees(catalog, Committed(s, id, port))
  {
    CommitKeeps(s, id, port);
    var start := s.starts[id];
    var gate := ResolveWorker(s.latest, s.reg, start.pack, start.requested);
    if gate.Cleared? {
      GateIsCoherent(s, start.pack, start.requested);
      if (start.pack, gate.release) in s.reg.adapters.byKey { LoadedIsBound(catalog, s, start.pack, start.requested); }
    }
    assert s.pass.Reaping? ==> s.latest == Some(s.pass.packs);
    hide Inv;
    hide WorkersOk;
    hide ListOk;
    hide ResolveWorker;
    hide DesiredKeys;
    hide StampOf;
  }

  lemma ReapAgrees(catalog: Catalog, s: System, key: Key)
    requires Agrees(catalog, s) && Enabled(s, ReapOne(key))
    ensures Agrees(catalog, Reaped(s, key))
  {
    ReapKeeps(s, key);
    hide Inv;
    hide DesiredKeys;
    hide ListOk;
  }

  /** Steps that load nothing and drop only marks, or nothing. */
  lemma RestAgrees(catalog: Catalog, s: System, a: Action)
    requires Agrees(catalog, s) && Enabled(s, a) && FaithfulStep(catalog, a)
    requires !a.Report? && !a.ReapOne? && !a.Commit? && !a.BeginReap?
    ensures Agrees(catalog, Apply(s, a))
  {
    StepKeeps(s, a);
    hide Inv;
    hide DesiredKeys;
    hide Visited;
    hide ResolveWorker;
    hide Faithful;
    hide Distinct;
  }

  lemma BeginReapAgrees(catalog: Catalog, s: System)
    requires Agrees(catalog, s) && Enabled(s, BeginReap)
    ensures Agrees(catalog, Apply(s, BeginReap))
  {
    StepKeeps(s, BeginReap);
    hide Inv;
    hide DesiredKeys;
    hide Visited;
    hide WorkersOk;
    hide ListOk;
  }

  lemma StepAgrees(catalog: Catalog, s: System, a: Action)
    requires Agrees(catalog, s) && Enabled(s, a) && FaithfulStep(catalog, a)
    ensures Agrees(catalog, Apply(s, a))
  {
    hide Agrees;
    match a
    case Report(load) => ReportAgrees(catalog, s, load);
    case BeginReap => BeginReapAgrees(catalog, s);
    case ReapOne(key) => ReapAgrees(catalog, s, key);
    case Commit(id, port) => CommitAgrees(catalog, s, id, port);
    case _ => RestAgrees(catalog, s, a);
  }

  lemma {:induction false} RunAgrees(catalog: Catalog, s: System, actions: seq<Action>, r: System)
    requires Agrees(catalog, s) && IsRun(s, actions, r) && FaithfulRun(catalog, actions)
    ensures Agrees(catalog, r)
    decreases |actions|
  {
    if actions != [] {
      assert FaithfulStep(catalog, actions[0]);
      StepAgrees(catalog, s, actions[0]);
      hide Agrees;
      hide Apply;
      hide Enabled;
      hide FaithfulStep;
      RunAgrees(catalog, Apply(s, actions[0]), actions[1..], r);
    }
  }

  lemma FaithfulAgrees(catalog: Catalog, actions: seq<Action>, s: System)
    requires IsRun(INITIAL, actions, s) && FaithfulRun(catalog, actions)
    ensures Agrees(catalog, s) && Reachable(s)
  {
    assert Agrees(catalog, INITIAL);
    hide Agrees;
    RunAgrees(catalog, INITIAL, actions, s);
  }

  /**
   From the moment a pack is reported installed until the next desired list arrives, the start
   gate clears it for the reported release, whatever starts, reaps and worker deaths intervene.
   */
  lemma InstalledIsNeverDeferred(catalog: Catalog, actions: seq<Action>, s: System, e: Entry)
    requires IsRun(INITIAL, actions, s) && FaithfulRun(catalog, actions)
    requires e in s.entries && e.status == Installed
    ensures ResolveWorker(s.latest, s.reg, e.id, Some(e.release)).Cleared?
  {
    FaithfulAgrees(catalog, actions, s);
    InstalledRowClearsIff(s, e);
    hide Reachable;
    hide IsRun;
    hide Inv;
    var first, last := FirstWithId(s.latest.value, e.id).value, ById(s.latest.value)[e.id];
    assert first in s.latest.value && last in s.latest.value && first == last;
    assert KeyOf(first) in catalog && catalog[KeyOf(first)] == first;
  }

  /** A start that finds its worker loaded is bound to it. */
  lemma LoadedMeansBound(catalog: Catalog, actions: seq<Action>, s: System, pack: PackId, requested: Option<Release>)
    requires IsRun(INITIAL, actions, s) && FaithfulRun(catalog, actions)
    requires ResolveWorker(s.latest, s.reg, pack, requested).Cleared?
    requires (pack, ResolveWorker(s.latest, s.reg, pack, requested).release) in s.reg.adapters.byKey
    ensures ResolveWorker(s.latest, s.reg, pack, requested).worker.Some?
  {
    FaithfulAgrees(catalog, actions, s);
    LoadedIsBound(catalog, s, pack, requested);
  }

  /**
   Along such runs no pinned key is ever doomed: a worker that is loaded when some launch spec pins its
   key stays registered for as long as any launch spec pins that key, on every run from there.
   */
  lemma PinnedKeyIsNeverReaped(catalog: Catalog, actions: seq<Action>, s: System, key: Key)
    requires IsRun(INITIAL, actions, s) && FaithfulRun(catalog, actions)
    requires Pins(s.specs, key) && key in s.reg.adapters.byKey
    ensures StaysWhilePinned(s, key)
  {
    FaithfulAgrees(catalog, actions, s);
    assert KeysOk(s.specs, s.pass, s.reg.adapters.byKey);
    assert !Doomed(s, key);
    hide Agrees;
    hide Doomed;
    PinnedKeyStaysIff(s, key);
  }
}
