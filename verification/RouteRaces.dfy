/**
 Rebuilds of the route map racing with inserts, removes and sessions that end in the backend.
 A rebuild captures the insert generation, fetches the listing and applies it, as three separate
 steps; any number of rebuilds overlap. The clock and the `...At` maps only record history.
 */
module RouteRaces {
  import opened Options
  import opened Routes

  datatype Rebuild = Captured(gen: nat, at: nat)
                   | Fetched(gen: nat, at: nat, fetched: nat, listing: seq<(SessionId, Upstream)>)

  datatype History = History(
    clock: nat,
    endedAt: map<SessionId, nat>,
    insertedAt: map<SessionId, nat>,
    stampedAt: map<SessionId, nat>)

  /**
   targets: every session row the backend ever created, with its target when it parses;
   listed: the rows the listing still shows; held: sessions inserted here and not removed since.
   */
  datatype System = System(
    table: Table,
    targets: map<SessionId, Option<Upstream>>,
    listed: set<SessionId>,
    held: set<SessionId>,
    rebuilds: map<nat, Rebuild>,
    history: History)

  datatype Action = RowCreated(sid: SessionId, target: Option<Upstream>)
                  | RowEnded(sid: SessionId)
                  | RouteInserted(sid: SessionId)
                  | RouteRemoved(sid: SessionId)
                  | Capture(id: nat)
                  | Fetch(id: nat, listing: seq<(SessionId, Upstream)>)
                  | Swap(id: nat)
                  | FetchFails(id: nat)

  const INITIAL := System(Table(map[], 0), map[], {}, {}, map[], History(0, map[], map[], map[]))

  ghost predicate IsListing(targets: map<SessionId, Option<Upstream>>, listed: set<SessionId>,
                            listing: seq<(SessionId, Upstream)>) {
    && (forall p :: p in listing ==> p.0 in listed && p.0 in targets && targets[p.0] == Some(p.1))
    && (forall sid :: sid in listed && sid in targets && targets[sid].Some? ==> (sid, targets[sid].value) in listing)
  }

  ghost predicate Enabled(s: System, a: Action) {
    match a
    case RowCreated(sid, target) => sid !in s.targets
    case RowEnded(sid) => sid in s.listed
    case RouteInserted(sid) => sid in s.targets && s.targets[sid].Some?
    case RouteRemoved(sid) => true
    case Capture(id) => id !in s.rebuilds
    case Fetch(id, listing) => id in s.rebuilds && s.rebuilds[id].Captured? && IsListing(s.targets, s.listed, listing)
    case Swap(id) => id in s.rebuilds && s.rebuilds[id].Fetched?
    case FetchFails(id) => id in s.rebuilds && s.rebuilds[id].Captured?
  }

  function Tick(h: History): (r: History) {
    h.(clock := h.clock + 1)
  }

  /** Snapshot entries carry the capture time of their rebuild; the others keep their own. */
  function Restamped(h: History, rebuilt: Table, gen: nat, at: nat, was: Table): (r: History) {
    h.(stampedAt := map sid | sid in rebuilt.entries ::
         if sid in Younger(was.entries, gen) && sid in h.stampedAt then h.stampedAt[sid] else at)
  }

  function Swapped(s: System, id: nat): (r: System)
    requires id in s.rebuilds && s.rebuilds[id].Fetched?
  {
    var r := s.rebuilds[id];
    var rebuilt := Replace(s.table, r.listing, r.gen);
    s.(table := rebuilt, rebuilds := s.rebuilds - {id},
       history := Tick(Restamped(s.history, rebuilt, r.gen, r.at, s.table)))
  }

  function Inserted(s: System, sid: SessionId): (r: System)
    requires sid in s.targets && s.targets[sid].Some?
  {
    var now := s.history.clock;
    s.(table := Insert(s.table, sid, s.targets[sid].value), held := s.held + {sid},
       history := Tick(s.history.(insertedAt := s.history.insertedAt[sid := now],
                                  stampedAt := s.history.stampedAt[sid := now])))
  }

  ghost function Apply(s: System, a: Action): (r: System)
    requires Enabled(s, a)
  {
    var h := s.history;
    match a
    case RowCreated(sid, target) =>
      s.(targets := s.targets[sid := target], listed := s.listed + {sid}, history := Tick(h))
    case RowEnded(sid) =>
      s.(listed := s.listed - {sid}, history := Tick(h.(endedAt := h.endedAt[sid := h.clock])))
    case RouteInserted(sid) => Inserted(s, sid)
    case RouteRemoved(sid) => s.(table := Remove(s.table, sid), held := s.held - {sid}, history := Tick(h))
    case Capture(id) => s.(rebuilds := s.rebuilds[id := Captured(s.table.gen, h.clock)], history := Tick(h))
    case Fetch(id, listing) =>
      s.(rebuilds := s.rebuilds[id := Fetched(s.rebuilds[id].gen, s.rebuilds[id].at, h.clock, listing)],
         history := Tick(h))
    case Swap(id) => Swapped(s, id)
    case FetchFails(id) => s.(rebuilds := s.rebuilds - {id}, history := Tick(h))
  }

  ghost predicate IsRun(s: System, actions: seq<Action>, r: System)
    decreases |actions|
  {
    if actions == [] then r == s
    else Enabled(s, actions[0]) && IsRun(Apply(s, actions[0]), actions[1..], r)
  }

  ghost predicate Reachable(s: System) {
    exists actions :: IsRun(INITIAL, actions, s)
  }

  // What every reachable state satisfies.

  ghost predicate BackendOk(targets: map<SessionId, Option<Upstream>>, listed: set<SessionId>,
                            endedAt: map<SessionId, nat>,
                            clock: nat) {
    && listed <= targets.Keys
    && endedAt.Keys == targets.Keys - listed
    && (forall sid :: sid in endedAt ==> endedAt[sid] < clock)
  }

  /** A listing names a row only with its own target, and was fetched before the row ended. */
  ghost predicate ListingOk(listing: seq<(SessionId, Upstream)>, fetched: nat,
                            targets: map<SessionId, Option<Upstream>>, endedAt: map<SessionId, nat>) {
    forall p :: p in listing ==>
                  && p.0 in targets && targets[p.0] == Some(p.1)
                  && (p.0 in endedAt ==> fetched < endedAt[p.0])
  }

  /** Captured, then fetched, both in the past. */
  ghost predicate RebuildOk(r: Rebuild, gen: nat, clock: nat, targets: map<SessionId, Option<Upstream>>,
                            endedAt: map<SessionId, nat>) {
    && r.at < clock && r.gen <= gen
    && (r.Fetched? ==> r.at < r.fetched < clock && ListingOk(r.listing, r.fetched, targets, endedAt))
  }

  ghost predicate RebuildsOk(rebuilds: map<nat, Rebuild>, gen: nat, clock: nat,
                             targets: map<SessionId, Option<Upstream>>, endedAt: map<SessionId, nat>) {
    forall id :: id in rebuilds ==> RebuildOk(rebuilds[id], gen, clock, targets, endedAt)
  }

  ghost predicate OrderOk(rebuilds: map<nat, Rebuild>) {
    forall i, j :: i in rebuilds && j in rebuilds && rebuilds[i].at < rebuilds[j].at ==>
          rebuilds[i].gen <= rebuilds[j].gen
  }

  ghost predicate RoutesOk(entries: map<SessionId, Entry>, gen: nat, targets: map<SessionId, Option<Upstream>>,
                           stampedAt: map<SessionId, nat>, clock: nat) {
    forall sid :: sid in entries ==>
                    && sid in targets && targets[sid] == Some(entries[sid].upstream)
                    && entries[sid].insertedGen <= gen
                    && sid in stampedAt && stampedAt[sid] < clock
  }

  /** A rebuild captured after an entry was stamped does not find that entry younger than itself. */
  ghost predicate StampsOk(entries: map<SessionId, Entry>, rebuilds: map<nat, Rebuild>,
                           stampedAt: map<SessionId, nat>) {
    forall sid, id :: sid in entries && sid in stampedAt && id in rebuilds && rebuilds[id].at > stampedAt[sid] ==>
                        entries[sid].insertedGen <= rebuilds[id].gen
  }

  /** The route of an ended session was stamped before the end or by its last insert. */
  ghost predicate EndsOk(entries: map<SessionId, Entry>, stampedAt: map<SessionId, nat>, endedAt: map<SessionId, nat>,
                         insertedAt: map<SessionId, nat>) {
    forall sid :: sid in entries && sid in stampedAt && sid in endedAt ==>
                    || stampedAt[sid] < endedAt[sid]
                    || (sid in insertedAt && stampedAt[sid] == insertedAt[sid])
  }

  /** A live session has a route, and every fetched listing either names it or is older than it. */
  ghost predicate HeldOk(entries: map<SessionId, Entry>, held: set<SessionId>, listed: set<SessionId>,
                         targets: map<SessionId, Option<Upstream>>, rebuilds: map<nat, Rebuild>) {
    forall sid :: sid in held && sid in listed ==>
                    && sid in targets && targets[sid].Some? && sid in entries
                    && (forall id :: id in rebuilds && rebuilds[id].Fetched? ==>
                                       Protected(sid, targets[sid].value, rebuilds[id], entries[sid].insertedGen))
  }

  ghost predicate Protected(sid: SessionId, upstream: Upstream, r: Rebuild, insertedGen: nat)
    requires r.Fetched?
  {
    (sid, upstream) in r.listing || insertedGen > r.gen
  }

  ghost predicate HeldKnown(held: set<SessionId>, targets: map<SessionId, Option<Upstream>>) {
    held <= targets.Keys
  }

  ghost predicate Inv(s: System) {
    && BackendOk(s.targets, s.listed, s.history.endedAt, s.history.clock)
    && RebuildsOk(s.rebuilds, s.table.gen, s.history.clock, s.targets, s.history.endedAt)
    && OrderOk(s.rebuilds)
    && RoutesOk(s.table.entries, s.table.gen, s.targets, s.history.stampedAt, s.history.clock)
    && StampsOk(s.table.entries, s.rebuilds, s.history.stampedAt)
    && EndsOk(s.table.entries, s.history.stampedAt, s.history.endedAt, s.history.insertedAt)
    && HeldOk(s.table.entries, s.held, s.listed, s.targets, s.rebuilds)
    && HeldKnown(s.held, s.targets)
  }

  lemma CreateKeeps(s: System, sid: SessionId, target: Option<Upstream>)
    requires Inv(s) && Enabled(s, RowCreated(sid, target))
    ensures Inv(Apply(s, RowCreated(sid, target)))
  {
    var r := Apply(s, RowCreated(sid, target));
    assert r.history.endedAt.Keys == r.targets.Keys - r.listed;
  }

  lemma EndKeeps(s: System, sid: SessionId)
    requires Inv(s) && Enabled(s, RowEnded(sid))
    ensures Inv(Apply(s, RowEnded(sid)))
  {
    var r := Apply(s, RowEnded(sid));
    assert r.history.endedAt.Keys == r.targets.Keys - r.listed;
  }

  lemma InsertKeeps(s: System, sid: SessionId)
    requires Inv(s) && Enabled(s, RouteInserted(sid))
    ensures Inv(Apply(s, RouteInserted(sid)))
  {
  }

  lemma RemoveKeeps(s: System, sid: SessionId)
    requires Inv(s)
    ensures Inv(Apply(s, RouteRemoved(sid)))
  {
  }

  lemma CaptureKeeps(s: System, id: nat)
    requires Inv(s) && Enabled(s, Capture(id))
    ensures Inv(Apply(s, Capture(id)))
  {
  }

  lemma FetchKeeps(s: System, id: nat, listing: seq<(SessionId, Upstream)>)
    requires Inv(s) && Enabled(s, Fetch(id, listing))
    ensures Inv(Apply(s, Fetch(id, listing)))
  {
  }

  lemma FailKeeps(s: System, id: nat)
    requires Inv(s) && Enabled(s, FetchFails(id))
    ensures Inv(Apply(s, FetchFails(id)))
  {
  }

  /** Exactly which routes a rebuild leaves: the listed ones and those younger than its capture. */
  lemma SwapLeaves(s: System, id: nat, sid: SessionId)
    requires Inv(s) && Enabled(s, Swap(id))
    ensures sid in Swapped(s, id).table.entries <==>
            || (exists u :: (sid, u) in s.rebuilds[id].listing)
            || (sid in s.table.entries && s.table.entries[sid].insertedGen > s.rebuilds[id].gen)
    ensures sid in Swapped(s, id).table.entries ==>
              if sid in s.table.entries && s.table.entries[sid].insertedGen > s.rebuilds[id].gen
              then Swapped(s, id).table.entries[sid] == s.table.entries[sid]
              else sid in s.targets && s.targets[sid].Some? && (sid, s.targets[sid].value) in s.rebuilds[id].listing
                   && Swapped(s, id).table.entries[sid] == Entry(s.targets[sid].value, s.rebuilds[id].gen)
  {
    var r := s.rebuilds[id];
    CollectHolds(r.listing, r.gen);
    if i :| 0 <= i < |r.listing| && r.listing[i].0 == sid {
      assert (sid, r.listing[i].1) in r.listing;
    }
    assert ListingOk(r.listing, r.fetched, s.targets, s.history.endedAt);
  }

  lemma SwapKeepsRoutes(s: System, id: nat)
    requires Inv(s) && Enabled(s, Swap(id))
    ensures var r := Swapped(s, id);
            && RoutesOk(r.table.entries, r.table.gen, r.targets, r.history.stampedAt, r.history.clock)
            && EndsOk(r.table.entries, r.history.stampedAt, r.history.endedAt, r.history.insertedAt)
  {
    var r := Swapped(s, id);
    forall sid | sid in r.table.entries
      ensures sid in r.targets && r.targets[sid] == Some(r.table.entries[sid].upstream)
      ensures r.table.entries[sid].insertedGen <= r.table.gen
      ensures r.history.stampedAt[sid] < r.history.clock
      ensures sid in r.history.endedAt ==>
                || r.history.stampedAt[sid] < r.history.endedAt[sid]
                || (sid in r.history.insertedAt && r.history.stampedAt[sid] == r.history.insertedAt[sid])
    {
      SwapLeaves(s, id, sid);
    }
  }

  lemma SwapKeepsStamps(s: System, id: nat)
    requires Inv(s) && Enabled(s, Swap(id))
    ensures var r := Swapped(s, id); StampsOk(r.table.entries, r.rebuilds, r.history.stampedAt)
  {
    var r := Swapped(s, id);
    forall sid, other | sid in r.table.entries && sid in r.history.stampedAt && other in r.rebuilds
                        && r.rebuilds[other].at > r.history.stampedAt[sid]
      ensures r.table.entries[sid].insertedGen <= r.rebuilds[other].gen
    {
      SwapLeaves(s, id, sid);
    }
  }

  lemma SwapKeepsHeld(s: System, id: nat)
    requires Inv(s) && Enabled(s, Swap(id))
    ensures var r := Swapped(s, id); HeldOk(r.table.entries, r.held, r.listed, r.targets, r.rebuilds)
  {
    var r := Swapped(s, id);
    forall sid | sid in r.held && sid in r.listed
      ensures sid in r.targets && r.targets[sid].Some? && sid in r.table.entries
      ensures forall other :: other in r.rebuilds && r.rebuilds[other].Fetched? ==>
                                Protected(sid, r.targets[sid].value, r.rebuilds[other],
                                          r.table.entries[sid].insertedGen)
    {
      SwapLeaves(s, id, sid);
      assert Protected(sid, s.targets[sid].value, s.rebuilds[id], s.table.entries[sid].insertedGen);
    }
  }

  lemma SwapKeeps(s: System, id: nat)
    requires Inv(s) && Enabled(s, Swap(id))
    ensures Inv(Apply(s, Swap(id)))
  {
    SwapKeepsRoutes(s, id);
    SwapKeepsStamps(s, id);
    SwapKeepsHeld(s, id);
  }

  lemma StepKeeps(s: System, a: Action)
    requires Inv(s) && Enabled(s, a)
    ensures Inv(Apply(s, a))
  {
    match a
    case RowCreated(sid, target) => CreateKeeps(s, sid, target);
    case RowEnded(sid) => EndKeeps(s, sid);
    case RouteInserted(sid) => InsertKeeps(s, sid);
    case RouteRemoved(sid) => RemoveKeeps(s, sid);
    case Capture(id) => CaptureKeeps(s, id);
    case Fetch(id, listing) => FetchKeeps(s, id, listing);
    case Swap(id) => SwapKeeps(s, id);
    case FetchFails(id) => FailKeeps(s, id);
  }

  lemma {:induction false} RunKeeps(s: System, actions: seq<Action>, r: System)
    requires Inv(s) && IsRun(s, actions, r)
    ensures Inv(r)
    decreases |actions|
  {
    if actions != [] {
      StepKeeps(s, actions[0]);
      RunKeeps(Apply(s, actions[0]), actions[1..], r);
    }
  }

  lemma ReachableInv(s: System)
    requires Reachable(s)
    ensures Inv(s)
  {
    var actions :| IsRun(INITIAL, actions, s);
    RunKeeps(INITIAL, actions, s);
  }

  /**
   However rebuilds overlap, a session inserted here, not removed since and still listed by the
   backend is found by the first lookup, under the upstream it was created on.
   */
  lemma LiveSessionIsRouted(s: System, sid: SessionId)
    requires Reachable(s)
    requires sid in s.held && sid in s.listed
    ensures sid in s.table.entries && sid in s.targets && s.targets[sid] == Some(s.table.entries[sid].upstream)
  {
    ReachableInv(s);
  }

  /** No route, live or stale, ever points at another session's target. */
  lemma NoRouteIsCrossed(s: System, sid: SessionId)
    requires Reachable(s) && sid in s.table.entries
    ensures sid in s.targets && s.targets[sid] == Some(s.table.entries[sid].upstream)
  {
    ReachableInv(s);
  }

  /** A rebuild captured after the session ended and after its last insert drops its route. */
  lemma LateRebuildDrops(s: System, id: nat, sid: SessionId)
    requires Reachable(s) && Enabled(s, Swap(id))
    requires sid in s.history.endedAt && s.rebuilds[id].at > s.history.endedAt[sid]
    requires sid in s.history.insertedAt ==> s.rebuilds[id].at > s.history.insertedAt[sid]
    ensures sid !in Apply(s, Swap(id)).table.entries
  {
    ReachableInv(s);
    SwapLeaves(s, id, sid);
    assert ListingOk(s.rebuilds[id].listing, s.rebuilds[id].fetched, s.targets, s.history.endedAt);
    assert forall u :: (sid, u) !in s.rebuilds[id].listing;
  }

  /** The session has ended and no listing still in flight names it: those fetched before the end are spent. */
  ghost predicate Drained(s: System, sid: SessionId) {
    && sid in s.history.endedAt
    && (forall id, u :: id in s.rebuilds && s.rebuilds[id].Fetched? ==> (sid, u) !in s.rebuilds[id].listing)
  }

  lemma DrainedStep(s: System, a: Action, sid: SessionId)
    requires Inv(s) && Enabled(s, a) && Drained(s, sid)
    ensures Drained(Apply(s, a), sid)
    ensures sid !in s.table.entries && a != RouteInserted(sid) ==> sid !in Apply(s, a).table.entries
  {
    if a.Fetch? {
      assert forall u :: (sid, u) in a.listing ==> (sid, u).0 in s.listed;
    }
    if a.Swap? {
      SwapLeaves(s, a.id, sid);
      assert forall u :: (sid, u) !in s.rebuilds[a.id].listing;
    }
  }

  lemma {:induction false} DrainedStays(s: System, actions: seq<Action>, r: System, sid: SessionId)
    requires Inv(s) && IsRun(s, actions, r) && RouteInserted(sid) !in actions
    requires Drained(s, sid) && sid !in s.table.entries
    ensures sid !in r.table.entries
    decreases |actions|
  {
    if actions != [] {
      DrainedStep(s, actions[0], sid);
      StepKeeps(s, actions[0]);
      hide Inv;
      hide Drained;
      DrainedStays(Apply(s, actions[0]), actions[1..], r, sid);
    }
  }

  /**
   An ended session's route is evicted for good: once every rebuild that fetched before the end is
   spent, the first one captured after the end and the last insert drops the route, and no run
   brings it back without a new insert, whatever rebuilds captured earlier are still to fetch.
   */
  lemma EvictionIsPermanent(s: System, id: nat, actions: seq<Action>, r: System, sid: SessionId)
    requires Reachable(s) && Enabled(s, Swap(id)) && Drained(s, sid)
    requires s.rebuilds[id].at > s.history.endedAt[sid]
    requires sid in s.history.insertedAt ==> s.rebuilds[id].at > s.history.insertedAt[sid]
    requires IsRun(Apply(s, Swap(id)), actions, r) && RouteInserted(sid) !in actions
    ensures sid !in r.table.entries
  {
    ReachableInv(s);
    LateRebuildDrops(s, id, sid);
    StepKeeps(s, Swap(id));
    DrainedStep(s, Swap(id), sid);
    hide Inv;
    hide Drained;
    DrainedStays(Apply(s, Swap(id)), actions, r, sid);
  }

  /** Every listing that names an ended session was fetched before the end. */
  lemma OldListingsOnly(s: System, id: nat, sid: SessionId, u: Upstream)
    requires Reachable(s) && id in s.rebuilds && s.rebuilds[id].Fetched? && (sid, u) in s.rebuilds[id].listing
    ensures sid in s.targets && s.targets[sid] == Some(u)
    ensures sid in s.history.endedAt ==> s.rebuilds[id].at < s.rebuilds[id].fetched < s.history.endedAt[sid]
  {
    ReachableInv(s);
    assert ListingOk(s.rebuilds[id].listing, s.rebuilds[id].fetched, s.targets, s.history.endedAt);
    assert (sid, u).0 in s.targets;
  }

  /** So an ended session is drained once no rebuild that fetched before the end is in flight. */
  lemma SpentFetchesDrain(s: System, sid: SessionId)
    requires Reachable(s) && sid in s.history.endedAt
    requires forall id :: id in s.rebuilds && s.rebuilds[id].Fetched? ==>
                            s.rebuilds[id].fetched > s.history.endedAt[sid]
    ensures Drained(s, sid)
  {
    forall id, u | id in s.rebuilds && s.rebuilds[id].Fetched? ensures (sid, u) !in s.rebuilds[id].listing {
      if (sid, u) in s.rebuilds[id].listing { OldListingsOnly(s, id, sid, u); }
    }
  }

  /** An absent route comes back in a swap if and only if the listing being swapped in names it. */
  lemma ResurrectedExactlyWhenListed(s: System, id: nat, sid: SessionId)
    requires Reachable(s) && Enabled(s, Swap(id)) && sid !in s.table.entries
    ensures sid in Apply(s, Swap(id)).table.entries <==> exists u :: (sid, u) in s.rebuilds[id].listing
  {
    ReachableInv(s);
    SwapLeaves(s, id, sid);
  }

  lemma {:induction false} RunAppend(s: System, actions: seq<Action>, r: System, a: Action)
    requires IsRun(s, actions, r) && Enabled(r, a)
    ensures IsRun(s, actions + [a], Apply(r, a))
    decreases |actions|
  {
    if actions == [] {
      assert [a][1..] == [];
      assert IsRun(Apply(s, a), [], Apply(s, a));
      assert actions + [a] == [a];
    } else {
      RunAppend(Apply(s, actions[0]), actions[1..], r, a);
      assert (actions + [a])[1..] == actions[1..] + [a];
    }
  }

  lemma Extend(s: System, a: Action)
    requires Reachable(s) && Enabled(s, a)
    ensures Reachable(Apply(s, a))
  {
    var actions :| IsRun(INITIAL, actions, s);
    RunAppend(INITIAL, actions, s, a);
  }

  lemma InitialReachable()
    ensures Reachable(INITIAL)
  {
    assert IsRun(INITIAL, [], INITIAL);
  }

  /** A listing with the session is in flight while the session is still listed. */
  lemma ListedThenFetched(sid: SessionId, u: Upstream) returns (s: System)
    ensures Reachable(s) && sid in s.listed && s.targets == map[sid := Some(u)] && s.table == Table(map[], 0)
    ensures s.rebuilds == map[0 := Fetched(0, 1, 2, [(sid, u)])]
  {
    hide Reachable;
    InitialReachable();
    Extend(INITIAL, RowCreated(sid, Some(u)));
    var s1 := Apply(INITIAL, RowCreated(sid, Some(u)));
    Extend(s1, Capture(0));
    var s2 := Apply(s1, Capture(0));
    assert IsListing(s2.targets, s2.listed, [(sid, u)]) by { assert (sid, u) in [(sid, u)]; }
    Extend(s2, Fetch(0, [(sid, u)]));
    s := Apply(s2, Fetch(0, [(sid, u)]));
  }

  /** A run in which a route is inserted and removed, its session ends, and an older rebuild reinstates it. */
  lemma RemovedRouteComesBack()
    ensures exists s: System, id: nat, sid: SessionId ::
              && Reachable(s) && Enabled(s, Swap(id))
              && sid in s.history.insertedAt && sid in s.history.endedAt && sid !in s.held && sid !in s.table.entries
              && sid in Apply(s, Swap(id)).table.entries
  {
    hide Reachable;
    var sid, u := "session", Upstream("host", 4723);
    var s := ListedThenFetched(sid, u);
    Extend(s, RouteInserted(sid));
    var inserted := Apply(s, RouteInserted(sid));
    Extend(inserted, RouteRemoved(sid));
    var removed := Apply(inserted, RouteRemoved(sid));
    Extend(removed, RowEnded(sid));
    var ended := Apply(removed, RowEnded(sid));
    ResurrectedExactlyWhenListed(ended, 0, sid);
    assert (sid, u) in ended.rebuilds[0].listing;
  }
}
