/** When a loaded worker is safe from the reap for as long as any launch spec pins its key. */
module PackPins {
  import opened Options
  import opened Packs
  import opened PackRaces

  predicate Pins(specs: map<Port, Spec>, key: Key) {
    exists port :: port in specs && (specs[port].pack, specs[port].release) == key
  }

  /** The reap under way has still to come to the key, and neither its list nor what it retains names it. */
  predicate Doomed(s: System, key: Key) {
    && s.pass.Reaping? && key in s.pass.keys
    && key !in DesiredKeys(s.pass.packs) && key !in s.pass.retained
  }

  /** A step unregisters a worker if and only if it is the reap coming to a doomed key. */
  lemma DroppedExactly(s: System, a: Action, key: Key)
    requires Enabled(s, a) && key in s.reg.adapters.byKey
    ensures key !in Apply(s, a).reg.adapters.byKey <==> a == ReapOne(key) && Doomed(s, key)
  {
    hide DesiredKeys;
    hide Visited;
    hide ResolveWorker;
    hide StatusOf;
  }

  /** A pinned key is retained by every later reap, so no doom comes upon it. */
  lemma PinnedIsNotDoomedAnew(s: System, a: Action, key: Key)
    requires Enabled(s, a) && Pins(s.specs, key) && !Doomed(s, key)
    ensures !Doomed(Apply(s, a), key)
  {
    hide DesiredKeys;
    hide Visited;
    hide ResolveWorker;
    hide StatusOf;
  }

  /** The key is pinned by some launch spec in every state along the run, not always by the same one. */
  ghost predicate PinnedThroughout(s: System, actions: seq<Action>, key: Key)
    decreases |actions|
  {
    && Pins(s.specs, key)
    && (actions != [] && Enabled(s, actions[0]) ==> PinnedThroughout(Apply(s, actions[0]), actions[1..], key))
  }

  lemma {:induction false} PinnedKeyStays(s: System, actions: seq<Action>, r: System, key: Key)
    requires IsRun(s, actions, r) && PinnedThroughout(s, actions, key)
    requires key in s.reg.adapters.byKey && !Doomed(s, key)
    ensures key in r.reg.adapters.byKey
    decreases |actions|
  {
    if actions != [] {
      DroppedExactly(s, actions[0], key);
      PinnedIsNotDoomedAnew(s, actions[0], key);
      hide Apply;
      hide Enabled;
      hide Pins;
      hide Doomed;
      PinnedKeyStays(Apply(s, actions[0]), actions[1..], r, key);
    }
  }

  /** Every run that keeps the key pinned keeps its worker registered. */
  ghost predicate StaysWhilePinned(s: System, key: Key) {
    forall actions, r :: IsRun(s, actions, r) && PinnedThroughout(s, actions, key) ==> key in r.reg.adapters.byKey
  }

  /**
   The exact condition, whatever the lists hold: a loaded worker whose key is pinned stays registered
   for as long as any launch spec pins that key if and only if no reap under way has doomed it already.
   */
  lemma PinnedKeyStaysIff(s: System, key: Key)
    requires Pins(s.specs, key) && key in s.reg.adapters.byKey
    ensures StaysWhilePinned(s, key) <==> !Doomed(s, key)
  {
    if Doomed(s, key) {
      var a := ReapOne(key);
      var r := Apply(s, a);
      assert [a][1..] == [] && IsRun(r, [], r);
      assert IsRun(s, [a], r);
      assert r.specs == s.specs && PinnedThroughout(r, [], key) && PinnedThroughout(s, [a], key);
      DroppedExactly(s, a, key);
    } else {
      forall actions, r | IsRun(s, actions, r) && PinnedThroughout(s, actions, key)
        ensures key in r.reg.adapters.byKey
      {
        PinnedKeyStays(s, actions, r, key);
      }
    }
  }

  /** A spec bound to the worker is proof enough. */
  lemma BoundIsNotDoomed(s: System, port: Port)
    requires Reachable(s) && port in s.specs && s.specs[port].worker.Some?
    ensures var key := (s.specs[port].pack, s.specs[port].release);
            key in s.reg.adapters.byKey && !Doomed(s, key) && StaysWhilePinned(s, key)
  {
    ReachableInv(s);
    var key := (s.specs[port].pack, s.specs[port].release);
    assert Pins(s.specs, key);
    PinnedKeyStaysIff(s, key);
  }
}
