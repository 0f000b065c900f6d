/** A pass of the pack state loop, as the loop object performs it, is a run of the interleaved model. */
module PackPass {
  import opened Options
  import opened Packs
  import opened PackLoop
  import opened PackRaces

  lemma {:induction false} RunsCompose(a: System, first: seq<Action>, b: System, second: seq<Action>, c: System)
    requires IsRun(a, first, b) && IsRun(b, second, c)
    ensures IsRun(a, first + second, c)
    decreases |first|
  {
    if first == [] {
      assert first + second == second;
    } else {
      RunsCompose(Apply(a, first[0]), first[1..], b, second, c);
      assert (first + second)[1..] == first[1..] + second;
    }
  }

  lemma OneStep(s: System, a: Action)
    requires Enabled(s, a)
    ensures IsRun(s, [a], Apply(s, a))
  {
    assert [a][1..] == [];
  }

  /** The environments come from the reconcile of the releases being visited. */
  predicate WorldOk(w: World, packs: seq<DesiredPack>) {
    forall p :: p in Visited(packs) && p.id in w.envs ==> w.envs[p.id].builtFor == p.release
  }

  function At(s: System, packs: seq<DesiredPack>, next: nat, reg: Registries, entries: seq<Entry>): (r: System) {
    s.(pass := Visiting(packs, next, false), reg := reg, entries := entries)
  }

  function VisitActions(p: DesiredPack, w: World): (r: seq<Action>) {
    if p.id in w.resolver then [Skip(ResolverBlocked(w.resolver[p.id]))]
    else if p.id !in w.envs then
      [Skip(RuntimeBlocked(if p.id in w.errors then w.errors[p.id] else "runtime_install_failed"))]
    else [Install(w.envs[p.id]), Report(LoadOf(w, KeyOf(p)))]
  }

  function Installing(s: System, packs: seq<DesiredPack>, next: nat, runtimes: Runtimes): (r: System) {
    s.(reg := s.reg.(runtimes := runtimes), pass := Visiting(packs, next, true))
  }

  lemma InstallEffect(s: System, packs: seq<DesiredPack>, next: nat, env: Env)
    requires s.pass == Visiting(packs, next, false) && next < |Visited(packs)|
    requires env.builtFor == Visited(packs)[next].release
    ensures Enabled(s, Install(env))
    ensures var p := Visited(packs)[next];
            Apply(s, Install(env)) == Installing(s, packs, next, SetEnv(s.reg.runtimes, p.id, env, Some(p.release)))
  {
    hide Visited;
    hide SetEnv;
  }

  lemma ReportEffect(s: System, packs: seq<DesiredPack>, next: nat, w: World)
    requires next < |Visited(packs)|
    requires Visited(packs)[next].id !in w.resolver && Visited(packs)[next].id in w.envs
    ensures var p := Visited(packs)[next];
            var mid := Installing(s, packs, next, SetEnv(s.reg.runtimes, p.id, w.envs[p.id], Some(p.release)));
            var load := LoadOf(w, KeyOf(p));
            var (reg, entry) := VisitPack(s.reg, p, w);
            && Enabled(mid, Report(load))
            && Apply(mid, Report(load)) == At(s, packs, next + 1, reg, s.entries + [entry])
  {
    hide Visited;
    hide StatusOf;
    hide LoadAdapter;
    hide WantsLoad;
  }

  lemma SkipEffect(s: System, packs: seq<DesiredPack>, next: nat, w: World)
    requires s.pass == Visiting(packs, next, false) && next < |Visited(packs)|
    requires Visited(packs)[next].id in w.resolver || Visited(packs)[next].id !in w.envs
    ensures var p := Visited(packs)[next];
            var (reg, entry) := VisitPack(s.reg, p, w);
            && Enabled(s, VisitActions(p, w)[0])
            && Apply(s, VisitActions(p, w)[0]) == At(s, packs, next + 1, reg, s.entries + [entry])
  {
    hide Visited;
    hide StatusOf;
    hide LoadAdapter;
  }

  lemma VisitIsRun(s: System, packs: seq<DesiredPack>, next: nat, w: World)
    requires s.pass == Visiting(packs, next, false) && next < |Visited(packs)| && WorldOk(w, packs)
    ensures var p := Visited(packs)[next];
            var (reg, entry) := VisitPack(s.reg, p, w);
            IsRun(s, VisitActions(p, w), At(s, packs, next + 1, reg, s.entries + [entry]))
  {
    hide Visited;
    hide VisitPack;
    hide Apply;
    hide IsRun;
    var p := Visited(packs)[next];
    if p.id in w.resolver || p.id !in w.envs {
      SkipEffect(s, packs, next, w);
      OneStep(s, VisitActions(p, w)[0]);
    } else {
      assert p in Visited(packs);
      InstallEffect(s, packs, next, w.envs[p.id]);
      ReportEffect(s, packs, next, w);
      var install, report := Install(w.envs[p.id]), Report(LoadOf(w, KeyOf(p)));
      hide WorldOk;
      hide Enabled;
      var mid := Apply(s, install);
      OneStep(s, install);
      OneStep(mid, report);
      RunsCompose(s, [install], mid, [report], Apply(mid, report));
      assert [install] + [report] == VisitActions(p, w);
    }
  }

  lemma {:induction false} VisitsAreRun(s: System, packs: seq<DesiredPack>, n: nat,
                                        w: World) returns (actions: seq<Action>)
    requires s.pass == Visiting(packs, 0, false) && s.entries == [] && n <= |Visited(packs)| && WorldOk(w, packs)
    ensures var (reg, entries) := VisitAll(s.reg, Visited(packs)[..n], w);
            IsRun(s, actions, At(s, packs, n, reg, entries))
  {
    if n == 0 {
      actions := [];
    } else {
      hide VisitPack;
      hide Visited;
      var before := VisitsAreRun(s, packs, n - 1, w);
      var (reg, entries) := VisitAll(s.reg, Visited(packs)[..n - 1], w);
      var mid := At(s, packs, n - 1, reg, entries);
      assert Visited(packs)[..n][..n - 1] == Visited(packs)[..n - 1];
      var p := Visited(packs)[n - 1];
      assert Visited(packs)[..n][n - 1] == p;
      VisitIsRun(mid, packs, n - 1, w);
      var (after, entry) := VisitPack(reg, p, w);
      RunsCompose(s, before, mid, VisitActions(p, w), At(s, packs, n, after, entries + [entry]));
      actions := before + VisitActions(p, w);
    }
  }

  /** Reaping key by key drops exactly the reapable ones. */
  lemma {:induction false} ReapIsRun(s: System) returns (actions: seq<Action>)
    requires s.pass.Reaping?
    ensures var doomed := s.pass.keys - DesiredKeys(s.pass.packs) - s.pass.retained;
            IsRun(s, actions, s.(pass := s.pass.(keys := {}),
                                 reg := s.reg.(adapters := RemoveAll(s.reg.adapters, doomed))))
    decreases s.pass.keys
  {
    var doomed := s.pass.keys - DesiredKeys(s.pass.packs) - s.pass.retained;
    if s.pass.keys == {} {
      assert RemoveAll(s.reg.adapters, doomed) == s.reg.adapters;
      actions := [];
    } else {
      var key :| key in s.pass.keys;
      var r := Apply(s, ReapOne(key));
      var rest := ReapIsRun(r);
      ReapFirst(s.reg.adapters, key, r.pass.keys - DesiredKeys(s.pass.packs) - s.pass.retained);
      assert doomed ==
             (if key in doomed then {key} else {}) + (r.pass.keys - DesiredKeys(s.pass.packs) - s.pass.retained);
      actions := [ReapOne(key)] + rest;
      assert actions[1..] == rest;
    }
  }

  lemma ReapFirst(a: Adapters, key: Key, keys: set<Key>)
    ensures RemoveAll(RemoveHandle(a, key), keys) == RemoveAll(a, {key} + keys)
    ensures RemoveAll(a, {} + keys) == RemoveAll(a, keys)
  {
    var l, r := RemoveAll(RemoveHandle(a, key), keys), RemoveAll(a, {key} + keys);
    assert l.byKey == r.byKey;
    assert l.adapterless == r.adapterless;
    assert l.current.Keys == r.current.Keys;
    assert l.current == r.current;
    assert {} + keys == keys;
  }

  /** The whole pass: fetch, visits, reap and end, with nothing in between. */
  lemma PassIsRun(s: System, packs: seq<DesiredPack>, w: World) returns (actions: seq<Action>)
    requires s.pass.Idle? && WorldOk(w, packs)
    ensures var (reg, entries) := VisitAll(s.reg, Visited(packs), w);
            IsRun(s, actions,
                  s.(latest := Some(packs), entries := entries, reg := AfterPass(reg, packs, Retained(s.specs))))
  {
    hide VisitAll;
    hide RemoveAll;
    hide Visited;
    var (reg, entries) := VisitAll(s.reg, Visited(packs), w);
    var s1 := Apply(s, Fetch(packs));
    OneStep(s, Fetch(packs));
    assert Visited(packs)[..|Visited(packs)|] == Visited(packs);
    var visits := VisitsAreRun(s1, packs, |Visited(packs)|, w);
    var s2 := At(s1, packs, |Visited(packs)|, reg, entries);
    RunsCompose(s, [Fetch(packs)], s1, visits, s2);
    OneStep(s2, BeginReap);
    var s3 := Apply(s2, BeginReap);
    RunsCompose(s, [Fetch(packs)] + visits, s2, [BeginReap], s3);
    var reaps := ReapIsRun(s3);
    var doomed := s3.pass.keys - DesiredKeys(packs) - s3.pass.retained;
    assert doomed == Reapable(reg.adapters, packs, Retained(s.specs));
    var s4 := s3.(pass := s3.pass.(keys := {}), reg := s3.reg.(adapters := RemoveAll(s3.reg.adapters, doomed)));
    RunsCompose(s, [Fetch(packs)] + visits + [BeginReap], s3, reaps, s4);
    OneStep(s4, EndPass);
    var s5 := Apply(s4, EndPass);
    actions := [Fetch(packs)] + visits + [BeginReap] + reaps + [EndPass];
    RunsCompose(s, [Fetch(packs)] + visits + [BeginReap] + reaps, s4, [EndPass], s5);
    assert s5 == s.(latest := Some(packs), entries := entries, reg := AfterPass(reg, packs, Retained(s.specs)));
  }
}
