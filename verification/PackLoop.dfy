/**
 The registries and the pack state loop as the agent holds them: objects updated in place
 (agent/agent_app/pack/adapter_registry.py, runtime_registry.py, state.py).
 */
module PackLoop {
  import opened Options
  import opened Packs

  class AdapterRegistry {
    var byKey: map<Key, Handle>
    var current: map<PackId, Release>
    var adapterless: set<Key>

    function Value(): (a: Adapters)
      reads this
    {
      Adapters(byKey, current, adapterless)
    }

    constructor ()
      ensures Value() == EMPTY.adapters
    {
      byKey, current, adapterless := map[], map[], {};
    }

    method Set(id: PackId, release: Release, handle: Handle)
      modifies this
      ensures Value() == SetHandle(old(Value()), (id, release), handle)
    {
      byKey := byKey[(id, release) := handle];
      current := current[id := release];
      adapterless := adapterless - {(id, release)};
    }

    method Mark(id: PackId, release: Release)
      modifies this`adapterless
      ensures Value() == MarkAdapterless(old(Value()), (id, release))
    {
      adapterless := adapterless + {(id, release)};
    }

    method PurgeMarksExcept(keys: set<Key>)
      modifies this`adapterless
      ensures Value() == PurgeAdapterless(old(Value()), keys)
    {
      adapterless := adapterless * keys;
    }

    method GetCurrent(id: PackId) returns (handle: Option<Handle>)
      ensures handle == CurrentHandle(Value(), id)
    {
      handle := None;
      if id in current {
        var key := (id, current[id]);
        if key in byKey {
          handle := Some(byKey[key]);
        }
      }
    }

    method Remove(id: PackId, release: Release) returns (handle: Option<Handle>)
      modifies this
      ensures Value() == RemoveHandle(old(Value()), (id, release))
      ensures handle == if (id, release) in old(byKey) then Some(old(byKey)[(id, release)]) else None
    {
      handle := None;
      if (id, release) in byKey {
        handle := Some(byKey[(id, release)]);
      }
      byKey := byKey - {(id, release)};
      adapterless := adapterless - {(id, release)};
      if id in current && current[id] == release {
        current := current - {id};
      }
    }
  }

  class RuntimeRegistry {
    var envs: map<PackId, Env>
    var stamps: map<PackId, Release>

    function Value(): (r: Runtimes)
      reads this
    {
      Runtimes(envs, stamps)
    }

    constructor ()
      ensures Value() == EMPTY.runtimes
    {
      envs, stamps := map[], map[];
    }

    method SetForPack(id: PackId, env: Env, release: Option<Release>)
      modifies this
      ensures Value() == SetEnv(old(Value()), id, env, release)
    {
      envs := envs[id := env];
      if release.Some? {
        stamps := stamps[id := release.value];
      } else {
        stamps := stamps - {id};
      }
    }

    method PurgeExcept(ids: set<PackId>)
      modifies this
      ensures Value() == PurgeRuntimes(old(Value()), ids)
    {
      var stale := set id | id in envs && id !in ids;
      ghost var all := stale;
      while stale != {}
        invariant stale <= all
        invariant envs == old(envs) - (all - stale) && stamps == old(stamps) - (all - stale)
        decreases stale
      {
        var id :| id in stale;
        stale := stale - {id};
        envs := envs - {id};
        stamps := stamps - {id};
      }
      assert all == old(envs).Keys - ids;
    }
  }

  /** Removing the given keys one after the other. */
  function RemoveAll(a: Adapters, keys: set<Key>): (r: Adapters) {
    Adapters(a.byKey - keys,
             map id | id in a.current && (id, a.current[id]) !in keys :: a.current[id],
             a.adapterless - keys)
  }

  lemma RemoveOneMore(a: Adapters, keys: set<Key>, key: Key)
    ensures RemoveHandle(RemoveAll(a, keys), key) == RemoveAll(a, keys + {key})
  {
    var l := RemoveHandle(RemoveAll(a, keys), key);
    var r := RemoveAll(a, keys + {key});
    assert l.byKey == r.byKey;
    assert l.adapterless == r.adapterless;
    assert l.current.Keys == r.current.Keys;
    assert l.current == r.current;
  }

  /** What the pass drops: workers neither desired nor retained by a launch spec. */
  function Reapable(a: Adapters, packs: seq<DesiredPack>, retained: set<Key>): (r: set<Key>) {
    a.byKey.Keys - DesiredKeys(packs) - retained
  }

  function AfterPass(reg: Registries, packs: seq<DesiredPack>, retained: set<Key>): (r: Registries) {
    Registries(PurgeAdapterless(RemoveAll(reg.adapters, Reapable(reg.adapters, packs, retained)), DesiredKeys(packs)),
               PurgeRuntimes(reg.runtimes, PackIds(packs)))
  }

  class PackStateLoop {
    const adapters: AdapterRegistry
    const runtimes: RuntimeRegistry
    var latestDesired: Option<seq<DesiredPack>>
    var latestStatus: Option<seq<Entry>>

    function Value(): (reg: Registries)
      reads this, adapters, runtimes
    {
      Registries(adapters.Value(), runtimes.Value())
    }

    /** Built anew after every crash of the loop, on registries that outlive it. */
    constructor (a: AdapterRegistry, r: RuntimeRegistry)
      ensures adapters == a && runtimes == r && latestDesired == None && latestStatus == None
    {
      adapters, runtimes := a, r;
      latestDesired, latestStatus := None, None;
    }

    /** The start gate, read off the live registries. */
    method Resolve(id: PackId, requested: Option<Release>) returns (gate: Gate)
      ensures gate == ResolveWorker(latestDesired, Value(), id, requested)
    {
      if latestDesired.None? {
        var handle := adapters.GetCurrent(id);
        if handle.None? {
          return Deferred(NotLoaded);
        }
        if requested.Some? && handle.value.release != requested.value {
          return Deferred(NotLoaded);
        }
        return Cleared(handle.value.release, handle);
      }
      var desired := FirstWithId(latestDesired.value, id);
      if desired.None? {
        return Deferred(NotDesired);
      }
      var p := desired.value;
      if requested.Some? && p.release != requested.value {
        return Deferred(ReleaseMismatch);
      }
      if StampOf(runtimes.Value(), p.id) != Some(p.release) {
        return Deferred(RuntimeNotInstalled);
      }
      if !(HasTarball(p) && HasAdapterPlatform(p)) || KeyOf(p) in adapters.adapterless {
        if DeclaredHooks(p) != [] {
          return Deferred(ShipsNoAdapter);
        }
        return Cleared(p.release, None);
      }
      if KeyOf(p) !in adapters.byKey {
        return Deferred(NotLoaded);
      }
      gate := Cleared(p.release, Some(adapters.byKey[KeyOf(p)]));
    }

    method Visit(p: DesiredPack, w: World) returns (entry: Entry)
      modifies adapters, runtimes
      ensures (Value(), entry) == VisitPack(old(Value()), p, w)
    {
      if p.id in w.resolver {
        return Entry(p.id, p.release, None, Blocked(ResolverBlocked(w.resolver[p.id])));
      }
      if p.id !in w.envs {
        var detail := if p.id in w.errors then w.errors[p.id] else "runtime_install_failed";
        return Entry(p.id, p.release, None, Blocked(RuntimeBlocked(detail)));
      }
      runtimes.SetForPack(p.id, w.envs[p.id], Some(p.release));
      if HasAdapterPlatform(p) && KeyOf(p) !in adapters.byKey && KeyOf(p) !in adapters.adapterless {
        LoadWorker(p, LoadOf(w, KeyOf(p)));
      }
      var status := Judge(p);
      entry := Entry(p.id, p.release, Some(w.envs[p.id].runtimeId), status);
    }

    method LoadWorker(p: DesiredPack, load: Load)
      modifies adapters
      ensures adapters.Value() == LoadAdapter(p, old(adapters.Value()), load)
    {
      if HasTarball(p) {
        match load
        case LoadFails =>
        case NoWheel => adapters.Mark(p.id, p.release);
        case Started(hooks) => adapters.Set(p.id, p.release, Handle(p.release, true, hooks));
      }
    }

    method Judge(p: DesiredPack) returns (status: Status)
      ensures status == StatusOf(p, adapters.Value())
    {
      var loaded := KeyOf(p) in adapters.byKey;
      var adapterless := KeyOf(p) in adapters.adapterless;
      if !loaded && HasAdapterPlatform(p) && HasTarball(p) && !adapterless {
        return Blocked(AdapterLoadFailed);
      }
      if !loaded && (!HasTarball(p) || adapterless) && DeclaredHooks(p) != [] {
        return Blocked(ShipsNoAdapterFor(DeclaredHooks(p)));
      }
      if loaded && !adapters.byKey[KeyOf(p)].alive {
        return Blocked(WorkerUnavailable);
      }
      if loaded {
        var missing := MissingHooks(p, adapters.byKey[KeyOf(p)]);
        if missing != [] {
          return Blocked(Unimplemented(missing));
        }
      }
      status := Installed;
    }

    method Reap(packs: seq<DesiredPack>, retained: set<Key>)
      modifies adapters
      ensures adapters.Value() == RemoveAll(old(adapters.Value()), Reapable(old(adapters.Value()), packs, retained))
    {
      var desired := DesiredKeys(packs);
      var keys := adapters.byKey.Keys;
      ghost var was := adapters.Value();
      ghost var reaped: set<Key> := {};
      assert adapters.Value() == RemoveAll(was, reaped);
      while keys != {}
        invariant keys <= was.byKey.Keys
        invariant reaped == Reapable(was, packs, retained) - keys
        invariant adapters.Value() == RemoveAll(was, reaped)
        decreases keys
      {
        var key :| key in keys;
        keys := keys - {key};
        if key !in desired && key !in retained {
          RemoveOneMore(was, reaped, key);
          var _ := adapters.Remove(key.0, key.1);
          reaped := reaped + {key};
        }
      }
      assert reaped == Reapable(was, packs, retained);
    }

    /** One pass with no start in between: the status and both registries. */
    method RunOnce(packs: seq<DesiredPack>, w: World, retained: set<Key>)
      modifies this, adapters, runtimes
      ensures latestDesired == Some(packs)
      ensures latestStatus == Some(VisitAll(old(Value()), Visited(packs), w).1)
      ensures forall p :: p in packs ==> ReportedOnce(latestStatus.value, packs, p)
      ensures Value() == AfterPass(VisitAll(old(Value()), Visited(packs), w).0, packs, retained)
    {
      hide VisitPack;
      hide Visited;
      latestDesired := Some(packs);
      var visited := Visited(packs);
      var entries: seq<Entry> := [];
      for i := 0 to |visited|
        invariant (Value(), entries) == VisitAll(old(Value()), visited[..i], w)
        invariant latestDesired == Some(packs)
      {
        assert visited[..i + 1][..i] == visited[..i];
        var entry := Visit(visited[i], w);
        entries := entries + [entry];
      }
      assert visited[..|visited|] == visited;
      runtimes.PurgeExcept(PackIds(packs));
      Reap(packs, retained);
      adapters.PurgeMarksExcept(DesiredKeys(packs));
      latestStatus := Some(entries);
      OneEntryPerPack(old(Value()), packs, w);
      hide ReportedOnce;
    }
  }
}
