/**
 Runs that go wrong: two that end with a pack reported installed which the start gate defers (one id
 listed twice, and a worker left over from when the same release still shipped an adapter), one that
 spawns a release onto another release's runtime, and one that pins a key the reap is about to take.
 */
module PackDisagreement {
  import opened Options
  import opened Packs
  import opened PackRaces
  import opened PackPins
  import opened PackRows

  lemma {:induction false} RunAppend(s: System, actions: seq<Action>, r: System, a: Action)
    requires IsRun(s, actions, r) && Enabled(r, a)
    ensures IsRun(s, actions + [a], Apply(r, a))
    decreases |actions|
  {
    hide Enabled;
    hide Apply;
    if actions == [] {
      assert actions + [a] == [a] && [a][1..] == [];
      assert IsRun(Apply(s, a), [], Apply(s, a));
    } else {
      RunAppend(Apply(s, actions[0]), actions[1..], r, a);
      assert (actions + [a])[1..] == actions[1..] + [a];
    }
  }

  lemma Extend(s: System, a: Action)
    requires Reachable(s) && Enabled(s, a)
    ensures Reachable(Apply(s, a))
  {
    hide Enabled;
    hide Apply;
    var actions :| IsRun(INITIAL, actions, s);
    RunAppend(INITIAL, actions, s, a);
  }

  lemma InitialReachable()
    ensures Reachable(INITIAL)
  {
    assert IsRun(INITIAL, [], INITIAL);
  }

  /** The gate defers the pack for the very release its row reports installed. */
  predicate Disagrees(s: System, e: Entry, why: Deferral) {
    && e in s.entries && e.status == Installed
    && ResolveWorker(s.latest, s.reg, e.id, Some(e.release)) == Deferred(why)
  }

  /** No start or spec has moved. */
  predicate SameNodes(s: System, r: System) {
    r.starts == s.starts && r.specs == s.specs && r.spawns == s.spawns
  }

  /** From an idle loop to the point where the runtime of a single pack is installed. */
  lemma InstallAlone(s: System, packs: seq<DesiredPack>, p: DesiredPack) returns (r: System)
    requires Reachable(s) && s.pass.Idle? && Visited(packs) == [p]
    ensures Reachable(r)
    ensures r == s.(latest := Some(packs), pass := Visiting(packs, 0, true), entries := [],
                    reg := s.reg.(runtimes := SetEnv(s.reg.runtimes, p.id, Env("runtime", p.release), Some(p.release))))
  {
    hide Reachable;
    hide Visited;
    hide SetEnv;
    Extend(s, Fetch(packs));
    var fetched := Apply(s, Fetch(packs));
    Extend(fetched, Install(Env("runtime", p.release)));
    r := Apply(fetched, Install(Env("runtime", p.release)));
  }

  /** What one visit of a single pack does, from an idle loop to its row. */
  lemma VisitAlone(s: System, packs: seq<DesiredPack>, p: DesiredPack, load: Load) returns (r: System)
    requires Reachable(s) && s.pass.Idle? && Visited(packs) == [p]
    ensures Reachable(r) && r.latest == Some(packs) && r.pass == Visiting(packs, 1, false) && SameNodes(s, r)
    ensures var a := if WantsLoad(p, s.reg.adapters) then LoadAdapter(p, s.reg.adapters, load) else s.reg.adapters;
            && r.reg == Registries(a, SetEnv(s.reg.runtimes, p.id, Env("runtime", p.release), Some(p.release)))
            && |r.entries| == 1 && r.entries[0].id == p.id && r.entries[0].release == p.release
            && r.entries[0].status == StatusOf(p, a)
  {
    hide Reachable;
    hide Visited;
    hide StatusOf;
    hide LoadAdapter;
    hide WantsLoad;
    hide SetEnv;
    var installed := InstallAlone(s, packs, p);
    Extend(installed, Report(load));
    r := Apply(installed, Report(load));
  }

  const OLD := DesiredPack("pack", "1", None, [])
  const NEW := DesiredPack("pack", "2", None, [])

  lemma LastOfTwo()
    ensures Visited([OLD, NEW]) == [NEW]
  {
    var packs := [OLD, NEW];
    assert packs[..1] == [OLD] && [OLD][..0] == [];
    assert ById([OLD]) == map["pack" := OLD] by { assert ById([]) == map[]; }
    assert ById(packs) == map["pack" := NEW];
    assert Ids([OLD]) == ["pack"] by { assert Ids([]) == []; }
    assert Ids(packs) == ["pack"];
  }

  /** One id listed twice: the row speaks of the last release, the gate of the first. */
  lemma DuplicateIdsDisagree() returns (s: System, e: Entry)
    ensures Reachable(s) && Disagrees(s, e, ReleaseMismatch)
  {
    InitialReachable();
    hide Reachable;
    LastOfTwo();
    s := VisitAlone(INITIAL, [OLD, NEW], NEW, LoadFails);
    e := s.entries[0];
    hide Visited;
    assert FirstWithId([OLD, NEW], "pack") == Some(OLD);
  }

  const DECLARING := [Platform(Declaration(true, false), [])]
  const SHIPPED := DesiredPack("pack", "1", Some("sha"), DECLARING)
  const STRIPPED := DesiredPack("pack", "1", None, DECLARING)

  lemma Alone(p: DesiredPack)
    ensures Visited([p]) == [p] && FirstWithId([p], p.id) == Some(p)
  {
    assert [p][..0] == [];
    assert ById([p]) == map[p.id := p] by { assert ById([]) == map[]; }
    assert Ids([p]) == [p.id] by { assert Ids([]) == []; }
  }

  lemma Declared(p: DesiredPack)
    requires p.platforms == DECLARING
    ensures DeclaredHooks(p) == [LIFECYCLE_ACTION] && HasAdapterPlatform(p)
  {
    assert DeclaresLifecycle(p.platforms[0]);
  }

  /** A pass whose only worker is desired ends with the registry as it was. */
  lemma FinishAlone(s: System, packs: seq<DesiredPack>, key: Key) returns (r: System)
    requires Reachable(s) && s.pass == Visiting(packs, 1, false) && |Visited(packs)| == 1
    requires s.reg.adapters.byKey.Keys == {key} && key in DesiredKeys(packs) && s.reg.adapters.adapterless == {}
    ensures Reachable(r) && r.pass.Idle? && r.reg.adapters == s.reg.adapters && SameNodes(s, r)
  {
    hide Reachable;
    hide Visited;
    hide DesiredKeys;
    hide Retained;
    Extend(s, BeginReap);
    var reaping := Apply(s, BeginReap);
    Extend(reaping, ReapOne(key));
    var reaped := Apply(reaping, ReapOne(key));
    assert reaped.pass.keys == {};
    Extend(reaped, EndPass);
    r := Apply(reaped, EndPass);
    assert r.reg.adapters.adapterless == {};
  }

  /** The release is loaded, and its pass ends with the worker kept. */
  lemma ShippedIsLoaded() returns (s: System)
    ensures Reachable(s) && s.pass.Idle? && SameNodes(INITIAL, s)
    ensures s.reg.adapters == Adapters(map[KeyOf(SHIPPED) := Handle("1", true, {LIFECYCLE_ACTION})], map["pack" := "1"],
                                       {})
  {
    InitialReachable();
    hide Reachable;
    Alone(SHIPPED);
    Declared(SHIPPED);
    hide Visited;
    hide StatusOf;
    hide DeclaredHooks;
    var visited := VisitAlone(INITIAL, [SHIPPED], SHIPPED, Started({LIFECYCLE_ACTION}));
    assert KeyOf(SHIPPED) in DesiredKeys([SHIPPED]) by { assert SHIPPED in [SHIPPED]; }
    s := FinishAlone(visited, [SHIPPED], KeyOf(SHIPPED));
  }

  /** The same release listed again without its tarball: the worker left over satisfies the table, not the gate. */
  lemma LeftoverWorkerDisagrees() returns (s: System, e: Entry)
    ensures Reachable(s) && Disagrees(s, e, ShipsNoAdapter)
  {
    hide Reachable;
    var loaded := ShippedIsLoaded();
    Alone(STRIPPED);
    Declared(STRIPPED);
    hide Visited;
    hide DeclaredHooks;
    s := VisitAlone(loaded, [STRIPPED], STRIPPED, LoadFails);
    e := s.entries[0];
    assert KeyOf(STRIPPED) == KeyOf(SHIPPED);
    assert StatusOf(STRIPPED, s.reg.adapters) == Installed by { assert LIFECYCLE_ACTION in {LIFECYCLE_ACTION}; }
  }

  // A mixed node.

  const FIRST := DesiredPack("pack", "1", Some("sha1"), [Platform(Declaration(false, false), [])])
  const SECOND := DesiredPack("pack", "2", Some("sha2"), [Platform(Declaration(false, false), [])])

  /** Release 1 has its worker and runtime, and release 2's runtime has just replaced the latter. */
  lemma RuntimeAhead() returns (s: System)
    ensures Reachable(s) && s.starts == map[] && s.spawns == []
    ensures s.reg.adapters == Adapters(map[("pack", "1") := Handle("1", true, {})], map["pack" := "1"], {})
    ensures s.reg.runtimes == Runtimes(map["pack" := Env("runtime", "2")], map["pack" := "2"])
  {
    InitialReachable();
    hide Reachable;
    Alone(FIRST);
    Alone(SECOND);
    hide Visited;
    hide StatusOf;
    var loaded := VisitAlone(INITIAL, [FIRST], FIRST, Started({}));
    Extend(loaded, Abort);
    s := InstallAlone(Apply(loaded, Abort), [SECOND], SECOND);
  }

  /**
   The loop is rebuilt between the install of a new runtime and the load of its worker: with the list
   unknown the old worker clears the gate, and release 1 is spawned onto the runtime of release 2.
   */
  lemma RebuiltLoopMixesReleases() returns (s: System)
    ensures Reachable(s) && |s.spawns| == 1 && !s.spawns[0].listKnown && !Coherent(s.spawns[0])
    ensures s.spawns[0].requested == Some("1") && s.spawns[0].spec.release == "1" && s.spawns[0].spec.worker.Some?
    ensures s.spawns[0].env.builtFor == "2"
  {
    hide Reachable;
    var ahead := RuntimeAhead();
    Extend(ahead, LoopRestarts);
    var unknown := Apply(ahead, LoopRestarts);
    Extend(unknown, Resolve(0, "pack", Some("1")));
    var resolved := Apply(unknown, Resolve(0, "pack", Some("1")));
    Extend(resolved, Commit(0, 4723));
    s := Apply(resolved, Commit(0, 4723));
  }

  // A pinned key the reap takes.

  const BARE := DesiredPack("pack", "1", Some("sha"), [])

  /** The worker is loaded, and the reap of a list without the release's platforms is under way. */
  lemma BareIsReaping() returns (s: System)
    ensures Reachable(s) && SameNodes(INITIAL, s) && s.latest == Some([BARE])
    ensures s.pass == Reaping([BARE], {KeyOf(BARE)}, {}) && s.reg.adapters.byKey.Keys == {KeyOf(BARE)}
    ensures StampOf(s.reg.runtimes, "pack") == Some("1") && s.reg.adapters.adapterless == {}
  {
    hide Reachable;
    var loaded := ShippedIsLoaded();
    Alone(BARE);
    hide Visited;
    hide StatusOf;
    var visited := VisitAlone(loaded, [BARE], BARE, LoadFails);
    Extend(visited, BeginReap);
    s := Apply(visited, BeginReap);
    assert "pack" in PackIds([BARE]) by { assert BARE in [BARE] && BARE.id == "pack"; }
  }

  /**
   A release whose worker is loaded is listed again without platforms, and a start pins it while the
   reap of that list is under way: the gate binds no worker, and the reap takes it with the key pinned.
   */
  lemma BareReleaseIsDoomed() returns (s: System, key: Key)
    ensures Reachable(s) && Pins(s.specs, key) && key in s.reg.adapters.byKey && Doomed(s, key)
    ensures !StaysWhilePinned(s, key)
  {
    hide Reachable;
    var reaping := BareIsReaping();
    Alone(BARE);
    hide Visited;
    Extend(reaping, Resolve(0, "pack", None));
    var resolved := Apply(reaping, Resolve(0, "pack", None));
    Extend(resolved, Commit(0, 4723));
    s, key := Apply(resolved, Commit(0, 4723)), KeyOf(BARE);
    assert 4723 in s.specs && (s.specs[4723].pack, s.specs[4723].release) == key;
    PinnedKeyStaysIff(s, key);
  }
}
