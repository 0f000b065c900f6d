/**
 The router's session-to-Appium route map (router/src/routes.rs) and the rebuilds that race
 with inserts and removes (router/src/proxy.rs, router/src/tasks.rs).
 */
module Routes {
  import opened Options

  type SessionId = string

  datatype Upstream = Upstream(host: string, port: nat)

  /** One map entry and the insert generation it was written at. */
  datatype Entry = Entry(upstream: Upstream, insertedGen: nat)

  datatype Table = Table(entries: map<SessionId, Entry>, gen: nat)

  /** The entries of a backend listing whose target parsed; a later duplicate wins. */
  function Collect(listing: seq<(SessionId, Upstream)>, captured: nat): (r: map<SessionId, Entry>) {
    if listing == [] then map[]
    else
      var (sid, upstream) := listing[|listing| - 1];
      Collect(listing[..|listing| - 1], captured)[sid := Entry(upstream, captured)]
  }

  /** The entries inserted after the listing's generation was captured. */
  function Younger(entries: map<SessionId, Entry>, captured: nat): (r: map<SessionId, Entry>) {
    map sid | sid in entries && entries[sid].insertedGen > captured :: entries[sid]
  }

  function Insert(t: Table, sid: SessionId, upstream: Upstream): (r: Table) {
    Table(t.entries[sid := Entry(upstream, t.gen + 1)], t.gen + 1)
  }

  function Remove(t: Table, sid: SessionId): (r: Table) {
    t.(entries := t.entries - {sid})
  }

  /** The listing, overlaid with every younger entry. */
  function Replace(t: Table, listing: seq<(SessionId, Upstream)>, captured: nat): (r: Table) {
    t.(entries := Collect(listing, captured) + Younger(t.entries, captured))
  }

  lemma {:induction false} CollectHolds(listing: seq<(SessionId, Upstream)>, captured: nat)
    ensures forall sid :: sid in Collect(listing, captured) <==> exists i :: 0 <= i < |listing| && listing[i].0 == sid
    ensures forall sid :: sid in Collect(listing, captured) ==>
              Collect(listing, captured)[sid].insertedGen == captured
                  && (sid, Collect(listing, captured)[sid].upstream) in listing
  {
    if listing != [] {
      var rest := listing[..|listing| - 1];
      CollectHolds(rest, captured);
      assert listing == rest + [listing[|listing| - 1]];
      forall sid ensures sid in Collect(listing, captured) <==> exists i :: 0 <= i < |listing| && listing[i].0 == sid {
        if sid in Collect(rest, captured) {
          var i :| 0 <= i < |rest| && rest[i].0 == sid;
          assert listing[i].0 == sid;
        }
        if sid == listing[|listing| - 1].0 { assert listing[|listing| - 1].0 == sid; }
      }
    }
  }

  /** The shared map, updated under its lock. Generations are unbounded here; the source counts in 64 bits. */
  class RouteMap {
    var entries: map<SessionId, Entry>
    var insertGen: nat

    function Value(): (t: Table)
      reads this
    {
      Table(entries, insertGen)
    }

    constructor ()
      ensures Value() == Table(map[], 0)
    {
      entries, insertGen := map[], 0;
    }

    method Get(sid: SessionId) returns (upstream: Option<Upstream>)
      ensures upstream == if sid in entries then Some(entries[sid].upstream) else None
    {
      upstream := None;
      if sid in entries {
        upstream := Some(entries[sid].upstream);
      }
    }

    method InsertRoute(sid: SessionId, upstream: Upstream)
      modifies this
      ensures Value() == Insert(old(Value()), sid, upstream)
    {
      insertGen := insertGen + 1;
      entries := entries[sid := Entry(upstream, insertGen)];
    }

    method RemoveRoute(sid: SessionId)
      modifies this`entries
      ensures Value() == Remove(old(Value()), sid)
    {
      entries := entries - {sid};
    }

    method InsertGeneration() returns (gen: nat)
      ensures gen == Value().gen
    {
      gen := insertGen;
    }

    method ReplaceIfUnchanged(listing: seq<(SessionId, Upstream)>, captured: nat)
      modifies this`entries
      ensures Value() == Replace(old(Value()), listing, captured)
    {
      var next := CollectListing(listing, captured);
      next := Overlay(next, captured);
      entries := next;
    }

    method CollectListing(listing: seq<(SessionId, Upstream)>, captured: nat) returns (next: map<SessionId, Entry>)
      ensures next == Collect(listing, captured)
    {
      next := map[];
      for i := 0 to |listing|
        invariant next == Collect(listing[..i], captured)
      {
        assert listing[..i + 1][..i] == listing[..i];
        next := next[listing[i].0 := Entry(listing[i].1, captured)];
      }
      assert listing[..|listing|] == listing;
    }

    method Overlay(snapshot: map<SessionId, Entry>, captured: nat) returns (next: map<SessionId, Entry>)
      ensures next == snapshot + Younger(entries, captured)
    {
      next := snapshot;
      var left := entries.Keys;
      while left != {}
        invariant left <= entries.Keys
        invariant forall sid :: sid in next <==> sid in snapshot || (sid in Younger(entries, captured) && sid !in left)
        invariant forall sid :: sid in next ==>
                                  next[sid] == if sid in Younger(entries, captured) && sid !in left then entries[sid]
                                      else snapshot[sid]
        decreases left
      {
        var sid :| sid in left;
        left := left - {sid};
        if entries[sid].insertedGen > captured {
          next := next[sid := entries[sid]];
        }
      }
    }
  }
}
