/**
 Live-session verdicts (agent/agent_app/probes.py): whether a device's session-scoped resources
 may still be held. The loop keeps one timestamp per key; the verdicts are stated against the
 whole history of what was seen.
 */
module LiveSessions {
  import opened Options

  type Time = real

  const SESSION_SETTLE_GRACE: Time := 60.0

  datatype LiveKey = ById(id: string) | ByTarget(target: string)

  datatype Activity = Active | Inactive | Unknown

  /** A running node or a roster entry, as far as the join reads it. */
  datatype Item = Item(deviceId: Option<string>, target: Option<string>)

  datatype Node = Node(item: Item, active: Activity)

  function IdKey(i: Item): (r: Option<LiveKey>) {
    if i.deviceId.Some? then Some(ById(i.deviceId.value)) else None
  }

  function TargetKey(i: Item): (r: Option<LiveKey>) {
    if i.target.Some? then Some(ByTarget(i.target.value)) else None
  }

  function Primary(i: Item): (r: Option<LiveKey>) {
    if IdKey(i).Some? then IdKey(i) else TargetKey(i)
  }

  /** One lookup of a key in one gather. */
  datatype Sight = Sight(key: LiveKey, active: Activity, at: Time)

  predicate Seen(h: seq<Sight>, key: LiveKey) {
    exists i :: 0 <= i < |h| && h[i].key == key
  }

  /** A sight that starts the grace anew: anything but a plain "inactive", or the first sight of its key. */
  predicate Stamps(h: seq<Sight>, i: nat)
    requires i < |h|
  {
    h[i].active != Inactive || !Seen(h[..i], h[i].key)
  }

  /** The key was active, unknown or first seen less than the grace ago. */
  predicate LiveIn(h: seq<Sight>, key: LiveKey, now: Time) {
    exists i :: 0 <= i < |h| && h[i].key == key && Stamps(h, i) && now - h[i].at < SESSION_SETTLE_GRACE
  }

  /** The time of the last stamp of a key. */
  function LastStamp(h: seq<Sight>, key: LiveKey): (t: Option<Time>)
    ensures t.Some? <==> Seen(h, key)
  {
    if h == [] then None
    else
      var n := |h| - 1;
      var before := LastStamp(h[..n], key);
      assert h == h[..n] + [h[n]];
      if h[n].key == key && (h[n].active != Inactive || before.None?) then Some(h[n].at) else before
  }

  /** Stamps of one key never go back in time. */
  predicate Ordered(h: seq<Sight>) {
    forall i :: 0 <= i < |h| && Stamps(h, i) && LastStamp(h[..i], h[i].key).Some? ==>
          LastStamp(h[..i], h[i].key).value <= h[i].at
  }

  lemma StampsExtend(h: seq<Sight>, s: Sight, i: nat)
    requires i < |h|
    ensures Stamps(h + [s], i) == Stamps(h, i)
    ensures LastStamp((h + [s])[..i], h[i].key) == LastStamp(h[..i], h[i].key)
  {
    assert (h + [s])[..i] == h[..i];
  }

  /** The single timestamp decides the same as the whole history. */
  lemma {:induction false} LastStampDecides(h: seq<Sight>, key: LiveKey, now: Time)
    requires Ordered(h)
    ensures LiveIn(h, key, now) <==> LastStamp(h, key).Some? && now - LastStamp(h, key).value < SESSION_SETTLE_GRACE
  {
    if h != [] {
      var n := |h| - 1;
      var b, s := h[..n], h[n];
      assert h == b + [s];
      forall i | 0 <= i < n
        ensures Stamps(h, i) == Stamps(b, i) && LastStamp(h[..i], h[i].key) == LastStamp(b[..i], b[i].key) {
        StampsExtend(b, s, i);
      }
      LastStampDecides(b, key, now);
      OneMoreSight(b, s, key, now);
    }
  }

  lemma OneMoreSight(h: seq<Sight>, s: Sight, key: LiveKey, now: Time)
    ensures LiveIn(h + [s], key, now) <==>
            || LiveIn(h, key, now)
            || (s.key == key && (s.active != Inactive || !Seen(h, key)) && now - s.at < SESSION_SETTLE_GRACE)
  {
    var r := h + [s];
    assert r[..|h|] == h;
    forall i | 0 <= i < |h| ensures Stamps(r, i) == Stamps(h, i) { StampsExtend(h, s, i); }
    if LiveIn(h, key, now) {
      var i :| 0 <= i < |h| && h[i].key == key && Stamps(h, i) && now - h[i].at < SESSION_SETTLE_GRACE;
      assert r[i].key == key && Stamps(r, i);
    }
    if s.key == key && (s.active != Inactive || !Seen(h, key)) && now - s.at < SESSION_SETTLE_GRACE {
      assert r[|h|].key == key && Stamps(r, |h|);
    }
    if LiveIn(r, key, now) {
      var i :| 0 <= i < |r| && r[i].key == key && Stamps(r, i) && now - r[i].at < SESSION_SETTLE_GRACE;
      if i < |h| { assert h[i].key == key && Stamps(h, i); }
    }
  }

  lemma OrderedExtends(h: seq<Sight>, s: Sight)
    requires Ordered(h)
    requires s.active != Inactive && LastStamp(h, s.key).Some? ==> LastStamp(h, s.key).value <= s.at
    ensures Ordered(h + [s])
  {
    var r := h + [s];
    assert r[..|h|] == h;
    forall i | 0 <= i < |r| && Stamps(r, i) && LastStamp(r[..i], r[i].key).Some?
      ensures LastStamp(r[..i], r[i].key).value <= r[i].at
    {
      if i < |h| { StampsExtend(h, s, i); }
    }
  }

  lemma StampExtends(h: seq<Sight>, s: Sight, key: LiveKey)
    ensures LastStamp(h + [s], key) ==
            if s.key == key && (s.active != Inactive || LastStamp(h, key).None?) then Some(s.at) else LastStamp(h, key)
  {
    assert (h + [s])[..|h|] == h;
  }

  lemma SeenExtends(h: seq<Sight>, s: Sight, key: LiveKey)
    ensures Seen(h + [s], key) <==> Seen(h, key) || s.key == key
  {
    var r := h + [s];
    if i :| 0 <= i < |h| && h[i].key == key { assert r[i].key == key; }
    if s.key == key { assert r[|h|].key == key; }
  }

  /** The first sight of a seen key. */
  lemma {:induction false} FirstSight(h: seq<Sight>, key: LiveKey) returns (i: nat)
    requires Seen(h, key)
    ensures i < |h| && h[i].key == key && !Seen(h[..i], key)
  {
    var n := |h| - 1;
    if Seen(h[..n], key) {
      i := FirstSight(h[..n], key);
      assert h[..n][..i] == h[..i];
    } else {
      i := n;
    }
  }

  /** A "no live session" verdict: seen first at least 60 s ago, and nothing but "inactive" in the last 60 s. */
  lemma SilenceMeansQuiet(h: seq<Sight>, key: LiveKey, now: Time) returns (first: nat)
    requires Seen(h, key) && !LiveIn(h, key, now)
    ensures first < |h| && h[first].key == key && !Seen(h[..first], key)
    ensures now - h[first].at >= SESSION_SETTLE_GRACE
    ensures forall i :: 0 <= i < |h| && h[i].key == key && now - h[i].at < SESSION_SETTLE_GRACE ==>
              h[i].active == Inactive
  {
    first := FirstSight(h, key);
    assert Stamps(h, first);
    assert forall i :: 0 <= i < |h| && h[i].active != Inactive ==> Stamps(h, i);
  }

  // One gather.

  /** The lookups a snapshot's nodes make, in order. */
  function Sights(nodes: seq<Node>, now: Time): (r: seq<Sight>) {
    if nodes == [] then []
    else
      var n := nodes[|nodes| - 1];
      var before := Sights(nodes[..|nodes| - 1], now);
      if Primary(n.item).Some? then before + [Sight(Primary(n.item).value, n.active, now)] else before
  }

  predicate HasId(nodes: seq<Node>, id: string) {
    exists i :: 0 <= i < |nodes| && nodes[i].item.deviceId == Some(id)
  }

  predicate HasTarget(nodes: seq<Node>, target: string) {
    exists i :: 0 <= i < |nodes| && nodes[i].item.target == Some(target)
  }

  /** Some node with a device id claims the target. */
  predicate Owns(nodes: seq<Node>, target: string) {
    exists i :: 0 <= i < |nodes| && nodes[i].item.deviceId.Some? && nodes[i].item.target == Some(target)
  }

  predicate Reports(nodes: seq<Node>, key: LiveKey) {
    exists i :: 0 <= i < |nodes| && Primary(nodes[i].item) == Some(key)
  }

  predicate ReportsLive(nodes: seq<Node>, key: LiveKey) {
    exists i :: 0 <= i < |nodes| && Primary(nodes[i].item) == Some(key) && nodes[i].active != Inactive
  }

  lemma {:induction false} SightsSeen(h: seq<Sight>, nodes: seq<Node>, now: Time, key: LiveKey)
    ensures Seen(h + Sights(nodes, now), key) <==> Seen(h, key) || Reports(nodes, key)
  {
    if nodes == [] {
      assert h + Sights(nodes, now) == h;
    } else {
      hide Reports;
      hide Seen;
      var b, n := nodes[..|nodes| - 1], nodes[|nodes| - 1];
      assert nodes == b + [n];
      SightsSeen(h, b, now, key);
      ReportsExtend(b, n, key);
      if Primary(n.item).Some? {
        var s := Sight(Primary(n.item).value, n.active, now);
        SeenExtends(h + Sights(b, now), s, key);
        assert h + Sights(nodes, now) == h + Sights(b, now) + [s];
      }
    }
  }

  lemma ReportsExtend(nodes: seq<Node>, n: Node, key: LiveKey)
    ensures Reports(nodes + [n], key) <==> Reports(nodes, key) || Primary(n.item) == Some(key)
    ensures ReportsLive(nodes + [n], key) <==>
              ReportsLive(nodes, key) || (Primary(n.item) == Some(key) && n.active != Inactive)
  {
    var r := nodes + [n];
    assert r[|nodes|] == n;
    assert forall i :: 0 <= i < |nodes| ==> r[i] == nodes[i];
  }

  /**
   Nodes that share a key combine as a logical or, in whatever order the snapshot lists them:
   any one of them live or unknown, a key never seen before, or the grace still running.
   */
  lemma {:induction false} NodesCombineAsOr(h: seq<Sight>, nodes: seq<Node>, now: Time, key: LiveKey)
    ensures LiveIn(h + Sights(nodes, now), key, now) <==>
              LiveIn(h, key, now) || ReportsLive(nodes, key) || (Reports(nodes, key) && !Seen(h, key))
  {
    if nodes == [] {
      assert h + Sights(nodes, now) == h;
    } else {
      hide Reports;
      hide ReportsLive;
      hide LiveIn;
      hide Seen;
      var b, n := nodes[..|nodes| - 1], nodes[|nodes| - 1];
      assert nodes == b + [n];
      NodesCombineAsOr(h, b, now, key);
      SightsSeen(h, b, now, key);
      ReportsExtend(b, n, key);
      if Primary(n.item).Some? {
        var s := Sight(Primary(n.item).value, n.active, now);
        OneMoreSight(h + Sights(b, now), s, key, now);
        assert h + Sights(nodes, now) == h + Sights(b, now) + [s];
      }
    }
  }

  /** The key an entry with a device id is judged by: its target only when no node with an id claims it. */
  function JoinKey(nodes: seq<Node>, entry: Item): (key: LiveKey)
    requires entry.deviceId.Some?
    ensures key == ById(entry.deviceId.value) ||
            (!HasId(nodes, entry.deviceId.value)
             && forall i :: 0 <= i < |nodes| && TargetKey(nodes[i].item) == Some(key) ==>
                  nodes[i].item.deviceId == None)
  {
    var id := entry.deviceId.value;
    if !HasId(nodes, id) && entry.target.Some? && HasTarget(nodes, entry.target.value)
       && !Owns(nodes, entry.target.value)
    then ByTarget(entry.target.value)
    else ById(id)
  }

  /** The entry is answered by the flags of the gather, without a lookup of its own. */
  predicate Matched(nodes: seq<Node>, entry: Item) {
    match entry.deviceId
    case Some(id) =>
      HasId(nodes, id) || (entry.target.Some? && HasTarget(nodes, entry.target.value)
                           && !Owns(nodes, entry.target.value))
    case None => entry.target.Some? && HasTarget(nodes, entry.target.value)
  }

  /** The lookup an entry makes: none when a node of the gather answers for it, or when it has no key. */
  function EntrySights(nodes: seq<Node>, entry: Item, now: Time): (r: seq<Sight>) {
    if Primary(entry).None? || Matched(nodes, entry) then [] else [Sight(Primary(entry).value, Inactive, now)]
  }

  function RosterSights(nodes: seq<Node>, roster: seq<Item>, now: Time): (r: seq<Sight>) {
    if roster == [] then []
    else RosterSights(nodes, roster[..|roster| - 1], now) + EntrySights(nodes, roster[|roster| - 1], now)
  }

  /** One gather: the snapshot's nodes, the roster, and the time it was taken. */
  datatype Round = Round(nodes: seq<Node>, roster: seq<Item>, now: Time)

  /** Everything a gather looks up. */
  function RoundSights(g: Round): (r: seq<Sight>) {
    Sights(g.nodes, g.now) + RosterSights(g.nodes, g.roster, g.now)
  }

  /** Everything a sequence of gathers looks up. */
  function HistoryOf(rounds: seq<Round>): (r: seq<Sight>) {
    if rounds == [] then [] else HistoryOf(rounds[..|rounds| - 1]) + RoundSights(rounds[|rounds| - 1])
  }

  /** The verdict a target-only entry reads: that of the last node with the target, as given when it was looked up. */
  function TargetVerdict(nodes: seq<Node>, before: seq<Sight>, t: string, now: Time): (r: bool) {
    if nodes == [] then false
    else
      var n := nodes[|nodes| - 1];
      if n.item.target == Some(t) then LiveIn(before + Sights(nodes, now), Primary(n.item).value, now)
      else TargetVerdict(nodes[..|nodes| - 1], before, t, now)
  }

  ghost predicate TargetsOk(flags: map<LiveKey, bool>, nodes: seq<Node>, before: seq<Sight>, now: Time) {
    forall t :: HasTarget(nodes, t) ==>
          ByTarget(t) in flags && flags[ByTarget(t)] == TargetVerdict(nodes, before, t, now)
  }

  /** What the flags of one gather say, over the nodes looked at. */
  ghost predicate FlagsOk(flags: map<LiveKey, bool>, owned: set<string>, nodes: seq<Node>, h: seq<Sight>, now: Time) {
    && (forall id :: ById(id) in flags <==> HasId(nodes, id))
    && (forall t :: ByTarget(t) in flags <==> HasTarget(nodes, t))
    && (forall t :: t in owned <==> Owns(nodes, t))
    && (forall id :: ById(id) in flags ==> Settled(flags, h, ById(id), now))
    && (forall t :: ByTarget(t) in flags && t !in owned ==> Settled(flags, h, ByTarget(t), now))
  }

  ghost predicate Settled(flags: map<LiveKey, bool>, h: seq<Sight>, key: LiveKey, now: Time)
    requires key in flags
  {
    Seen(h, key) && flags[key] == LiveIn(h, key, now)
  }

  lemma NodesExtend(nodes: seq<Node>, n: Node)
    ensures forall id :: HasId(nodes + [n], id) <==> HasId(nodes, id) || n.item.deviceId == Some(id)
    ensures forall t :: HasTarget(nodes + [n], t) <==> HasTarget(nodes, t) || n.item.target == Some(t)
    ensures forall t :: Owns(nodes + [n], t) <==> Owns(nodes, t) || (n.item.deviceId.Some? && n.item.target == Some(t))
  {
    var r := nodes + [n];
    assert r[|nodes|] == n;
    forall i | 0 <= i < |nodes| ensures r[i] == nodes[i] { }
    forall id ensures HasId(r, id) <==> HasId(nodes, id) || n.item.deviceId == Some(id) {
      if i :| 0 <= i < |nodes| && nodes[i].item.deviceId == Some(id) { assert r[i].item.deviceId == Some(id); }
    }
    forall t ensures HasTarget(r, t) <==> HasTarget(nodes, t) || n.item.target == Some(t) {
      if i :| 0 <= i < |nodes| && nodes[i].item.target == Some(t) { assert r[i].item.target == Some(t); }
    }
    forall t ensures Owns(r, t) <==> Owns(nodes, t) || (n.item.deviceId.Some? && n.item.target == Some(t)) {
      if i :| 0 <= i < |nodes| && nodes[i].item.deviceId.Some? && nodes[i].item.target == Some(t) {
        assert r[i].item.deviceId.Some? && r[i].item.target == Some(t);
      }
    }
  }

  /** The flags after one more node. */
  function Published(flags: map<LiveKey, bool>, i: Item, verdict: bool): (r: map<LiveKey, bool>)
    requires Primary(i).Some?
  {
    var first := flags[Primary(i).value := verdict];
    if TargetKey(i).Some? then first[TargetKey(i).value := verdict] else first
  }

  lemma PublishKeeps(flags: map<LiveKey, bool>, owned: set<string>, nodes: seq<Node>, h: seq<Sight>, now: Time, n: Node,
                     verdict: bool)
    requires FlagsOk(flags, owned, nodes, h, now) && Primary(n.item).Some?
    requires var s := Sight(Primary(n.item).value, n.active, now); verdict == LiveIn(h + [s], s.key, now)
    ensures var s := Sight(Primary(n.item).value, n.active, now);
            var more := if n.item.deviceId.Some? && n.item.target.Some? then owned + {n.item.target.value} else owned;
            FlagsOk(Published(flags, n.item, verdict), more, nodes + [n], h + [s], now)
  {
    NodesExtend(nodes, n);
    PublishSettles(flags, h, now, n, verdict);
    hide HasId;
    hide HasTarget;
    hide Owns;
    hide Settled;
    hide LiveIn;
  }

  lemma PublishSettles(flags: map<LiveKey, bool>, h: seq<Sight>, now: Time, n: Node, verdict: bool)
    requires Primary(n.item).Some?
    requires var s := Sight(Primary(n.item).value, n.active, now); verdict == LiveIn(h + [s], s.key, now)
    ensures var s, r := Sight(Primary(n.item).value, n.active, now), Published(flags, n.item, verdict);
            && Settled(r, h + [s], s.key, now)
            && forall key ::
                 (key in flags && key != s.key && Settled(flags, h, key, now) && TargetKey(n.item) != Some(key)) ==>
                   Settled(r, h + [s], key, now)
  {
    hide LiveIn;
    hide Seen;
    var s := Sight(Primary(n.item).value, n.active, now);
    var r := Published(flags, n.item, verdict);
    SeenExtends(h, s, s.key);
    forall key | key in flags && key != s.key && Settled(flags, h, key, now) && TargetKey(n.item) != Some(key)
      ensures Settled(r, h + [s], key, now)
    {
      OneMoreSight(h, s, key, now);
      SeenExtends(h, s, key);
    }
  }

  /** The history gains nothing, or one more "inactive" lookup. */
  ghost predicate Quietly(h: seq<Sight>, r: seq<Sight>, now: Time) {
    || r == h
    || (|r| == |h| + 1 && r == h + [r[|h|]] && r[|h|].active == Inactive && r[|h|].at == now)
  }

  /** A verdict once given for a gather stands for the rest of it. */
  lemma VerdictStands(h: seq<Sight>, r: seq<Sight>, now: Time, key: LiveKey)
    requires Quietly(h, r, now) && Seen(h, key)
    ensures Seen(r, key) && LiveIn(r, key, now) == LiveIn(h, key, now)
  {
    if r != h {
      OneMoreSight(h, r[|h|], key, now);
      SeenExtends(h, r[|h|], key);
    }
  }

  lemma FlagsStand(flags: map<LiveKey, bool>, owned: set<string>, nodes: seq<Node>, h: seq<Sight>, r: seq<Sight>,
                   now: Time)
    requires FlagsOk(flags, owned, nodes, h, now) && Quietly(h, r, now)
    ensures FlagsOk(flags, owned, nodes, r, now)
  {
    forall key | key in flags && Settled(flags, h, key, now) ensures Settled(flags, r, key, now) {
      VerdictStands(h, r, now, key);
    }
    hide HasId;
    hide HasTarget;
    hide Owns;
    hide Settled;
  }

  lemma EntryIsQuiet(h: seq<Sight>, nodes: seq<Node>, entry: Item, now: Time)
    ensures Quietly(h, h + EntrySights(nodes, entry, now), now)
  {
    if EntrySights(nodes, entry, now) == [] { assert h + [] == h; }
  }

  lemma TargetVerdictExtends(nodes: seq<Node>, before: seq<Sight>, t: string, now: Time, n: Node)
    ensures TargetVerdict(nodes + [n], before, t, now) ==
            if n.item.target == Some(t) then LiveIn(before + Sights(nodes + [n], now), Primary(n.item).value, now)
            else TargetVerdict(nodes, before, t, now)
  {
    assert (nodes + [n])[..|nodes|] == nodes;
  }

  lemma KeylessKeepsTargets(flags: map<LiveKey, bool>, nodes: seq<Node>, before: seq<Sight>, now: Time, n: Node)
    requires TargetsOk(flags, nodes, before, now) && Primary(n.item).None?
    ensures TargetsOk(flags, nodes + [n], before, now)
  {
    NodesExtend(nodes, n);
    forall t | HasTarget(nodes + [n], t)
      ensures TargetVerdict(nodes + [n], before, t, now) == TargetVerdict(nodes, before, t, now) {
      TargetVerdictExtends(nodes, before, t, now, n);
    }
    hide TargetVerdict;
    hide HasTarget;
  }

  lemma PublishTargets(flags: map<LiveKey, bool>, nodes: seq<Node>, before: seq<Sight>, now: Time, n: Node,
                       verdict: bool)
    requires TargetsOk(flags, nodes, before, now) && Primary(n.item).Some?
    requires verdict == LiveIn(before + Sights(nodes + [n], now), Primary(n.item).value, now)
    ensures TargetsOk(Published(flags, n.item, verdict), nodes + [n], before, now)
  {
    hide LiveIn;
    hide Sights;
    hide TargetVerdict;
    NodesExtend(nodes, n);
    hide HasTarget;
    forall t | HasTarget(nodes + [n], t)
      ensures ByTarget(t) in Published(flags, n.item, verdict)
      ensures Published(flags, n.item, verdict)[ByTarget(t)] == TargetVerdict(nodes + [n], before, t, now)
    {
      TargetVerdictExtends(nodes, before, t, now, n);
    }
  }

  // Sequences of gathers.

  predicate Clocked(rounds: seq<Round>) {
    forall m, n :: 0 <= m < n < |rounds| ==> rounds[m].now <= rounds[n].now
  }

  /** The verdicts of gather n, judged by everything looked up since the beginning. */
  predicate VerdictsOk(rounds: seq<Round>, n: nat, verdicts: seq<bool>)
    requires n < |rounds|
  {
    var g := rounds[n];
    && |verdicts| == |g.roster|
    && forall i :: 0 <= i < |g.roster| && g.roster[i].deviceId.Some? ==>
                     && Seen(HistoryOf(rounds[..n + 1]), JoinKey(g.nodes, g.roster[i]))
                     && verdicts[i] == LiveIn(HistoryOf(rounds[..n + 1]), JoinKey(g.nodes, g.roster[i]), g.now)
  }

  lemma Judged(rounds: seq<Round>, n: nat, verdicts: seq<bool>, h: seq<Sight>)
    requires n < |rounds| && h == HistoryOf(rounds[..n + 1]) && |verdicts| == |rounds[n].roster|
    requires forall i :: 0 <= i < |rounds[n].roster| && rounds[n].roster[i].deviceId.Some? ==>
                           && Seen(h, JoinKey(rounds[n].nodes, rounds[n].roster[i]))
                           && verdicts[i] == LiveIn(h, JoinKey(rounds[n].nodes, rounds[n].roster[i]), rounds[n].now)
    ensures VerdictsOk(rounds, n, verdicts)
  {
  }

  /** A gather looks a key up: a node reports it, or an entry without a match falls back on it. */
  predicate LooksUp(g: Round, key: LiveKey) {
    exists i :: 0 <= i < |RoundSights(g)| && RoundSights(g)[i].key == key
  }

  lemma {:induction false} SightOfNode(nodes: seq<Node>, now: Time, i: nat) returns (k: nat)
    requires i < |nodes| && Primary(nodes[i].item).Some?
    ensures k < |Sights(nodes, now)| && Sights(nodes, now)[k] == Sight(Primary(nodes[i].item).value, nodes[i].active,
                                                                       now)
  {
    if i == |nodes| - 1 {
      k := |Sights(nodes[..i], now)|;
    } else {
      k := SightOfNode(nodes[..|nodes| - 1], now, i);
    }
  }

  lemma {:induction false} SightsAreNow(nodes: seq<Node>, now: Time)
    ensures forall k :: 0 <= k < |Sights(nodes, now)| ==> Sights(nodes, now)[k].at == now
  {
    if nodes != [] { SightsAreNow(nodes[..|nodes| - 1], now); }
  }

  lemma {:induction false} RosterIsNow(nodes: seq<Node>, roster: seq<Item>, now: Time)
    ensures forall k :: 0 <= k < |RosterSights(nodes, roster, now)| ==> RosterSights(nodes, roster, now)[k].at == now
  {
    if roster != [] { RosterIsNow(nodes, roster[..|roster| - 1], now); }
  }

  /** Every sight of gather m is in the history, and every sight in the history is one of some gather. */
  lemma {:induction false} HistoryHolds(rounds: seq<Round>, m: nat, k: nat) returns (i: nat)
    requires m < |rounds| && k < |RoundSights(rounds[m])|
    ensures i < |HistoryOf(rounds)| && HistoryOf(rounds)[i] == RoundSights(rounds[m])[k]
  {
    hide RoundSights;
    var last := |rounds| - 1;
    if m == last {
      i := |HistoryOf(rounds[..last])| + k;
    } else {
      i := HistoryHolds(rounds[..last], m, k);
    }
  }

  lemma {:induction false} HistoryIsLookedUp(rounds: seq<Round>, i: nat) returns (m: nat)
    requires i < |HistoryOf(rounds)|
    ensures m < |rounds| && LooksUp(rounds[m], HistoryOf(rounds)[i].key) && HistoryOf(rounds)[i].at == rounds[m].now
  {
    var last := |rounds| - 1;
    var before := HistoryOf(rounds[..last]);
    if i < |before| {
      hide RoundSights;
      m := HistoryIsLookedUp(rounds[..last], i);
    } else {
      m := last;
      SightsAreNow(rounds[m].nodes, rounds[m].now);
      RosterIsNow(rounds[m].nodes, rounds[m].roster, rounds[m].now);
      assert RoundSights(rounds[m])[i - |before|].key == HistoryOf(rounds)[i].key;
    }
  }

  /**
   What "no live session" means, for any sequence of gathers: when gather n denies one for an entry
   with a device id, the entry's key was first looked up by a gather at least 60 s earlier, and no
   gather in the last 60 s, this one included, saw a node of that key active or unknown.
   */
  lemma NoLiveSessionMeans(rounds: seq<Round>, n: nat, verdicts: seq<bool>, i: nat) returns (first: nat)
    requires n < |rounds| && VerdictsOk(rounds, n, verdicts)
    requires i < |rounds[n].roster| && rounds[n].roster[i].deviceId.Some? && !verdicts[i]
    ensures var key := JoinKey(rounds[n].nodes, rounds[n].roster[i]);
            && first <= n && LooksUp(rounds[first], key) && rounds[n].now - rounds[first].now >= SESSION_SETTLE_GRACE
            && (forall m :: 0 <= m <= n && rounds[n].now - rounds[m].now < SESSION_SETTLE_GRACE ==>
                  !ReportsLive(rounds[m].nodes, key))
  {
    var key := JoinKey(rounds[n].nodes, rounds[n].roster[i]);
    var seen := rounds[..n + 1];
    var h := HistoryOf(seen);
    var k := SilenceMeansQuiet(h, key, rounds[n].now);
    first := HistoryIsLookedUp(seen, k);
    forall m | 0 <= m <= n && rounds[n].now - rounds[m].now < SESSION_SETTLE_GRACE
      ensures !ReportsLive(rounds[m].nodes, key)
    {
      if ReportsLive(rounds[m].nodes, key) {
        var j :| 0 <= j < |rounds[m].nodes| && Primary(rounds[m].nodes[j].item) == Some(key)
                 && rounds[m].nodes[j].active != Inactive;
        var at := SightOfNode(rounds[m].nodes, rounds[m].now, j);
        assert RoundSights(seen[m])[at] == Sights(rounds[m].nodes, rounds[m].now)[at];
        var x := HistoryHolds(seen, m, at);
        assert false;
      }
    }
  }

  // From keys to devices.

  /** Every node of the snapshot carries its device id. */
  predicate AllIdentified(nodes: seq<Node>) {
    forall i :: 0 <= i < |nodes| ==> nodes[i].item.deviceId.Some?
  }

  /** Where every node carries its id, an entry with an id is judged by that id alone. */
  lemma IdentifiedJoinsById(nodes: seq<Node>, entry: Item)
    requires AllIdentified(nodes) && entry.deviceId.Some?
    ensures JoinKey(nodes, entry) == ById(entry.deviceId.value)
  {
    if entry.target.Some? && HasTarget(nodes, entry.target.value) {
      var i :| 0 <= i < |nodes| && nodes[i].item.target == entry.target;
      assert Owns(nodes, entry.target.value);
    }
  }

  /** Some node of the gather with the device's id is active, or its state unknown. */
  predicate DeviceBusy(nodes: seq<Node>, id: string) {
    exists i :: 0 <= i < |nodes| && nodes[i].item.deviceId == Some(id) && nodes[i].active != Inactive
  }

  /**
   For the device: when a gather whose nodes all carry their ids denies a live session for an entry, the
   device was first looked up at least 60 s before, and no gather in the last 60 s saw a node with its
   id active or unknown.
   */
  lemma NoLiveSessionForDevice(rounds: seq<Round>, n: nat, verdicts: seq<bool>, i: nat) returns (first: nat)
    requires n < |rounds| && VerdictsOk(rounds, n, verdicts) && AllIdentified(rounds[n].nodes)
    requires i < |rounds[n].roster| && rounds[n].roster[i].deviceId.Some? && !verdicts[i]
    ensures var id := rounds[n].roster[i].deviceId.value;
            && first <= n && LooksUp(rounds[first], ById(id))
            && rounds[n].now - rounds[first].now >= SESSION_SETTLE_GRACE
            && (forall m :: 0 <= m <= n && rounds[n].now - rounds[m].now < SESSION_SETTLE_GRACE ==>
                              !DeviceBusy(rounds[m].nodes, id))
  {
    var id := rounds[n].roster[i].deviceId.value;
    IdentifiedJoinsById(rounds[n].nodes, rounds[n].roster[i]);
    first := NoLiveSessionMeans(rounds, n, verdicts, i);
    forall m | 0 <= m <= n && rounds[n].now - rounds[m].now < SESSION_SETTLE_GRACE
      ensures !DeviceBusy(rounds[m].nodes, id)
    {
      assert DeviceBusy(rounds[m].nodes, id) ==> ReportsLive(rounds[m].nodes, ById(id));
    }
  }

  /**
   A sight under one key stamps no other, so a device reported with its id in one gather and without it
   in the next has two independent graces.
   */
  lemma SightsStampOwnKeyOnly(h: seq<Sight>, s: Sight, key: LiveKey, now: Time)
    requires s.key != key
    ensures LiveIn(h + [s], key, now) == LiveIn(h, key, now) && Seen(h + [s], key) == Seen(h, key)
  {
    OneMoreSight(h, s, key, now);
    SeenExtends(h, s, key);
  }

  const WITH_ID := Item(Some("device"), Some("serial"))
  const WITHOUT_ID := Item(None, Some("serial"))

  /** First seen with its id, active without it at 100 s, seen with it again at 101 s. */
  const ALTERNATING := [
    Round([Node(WITH_ID, Inactive)], [WITH_ID], 0.0),
    Round([Node(WITHOUT_ID, Active)], [WITH_ID], 100.0),
    Round([Node(WITH_ID, Inactive)], [WITH_ID], 101.0)]

  lemma AlternatingHistory()
    ensures HistoryOf(ALTERNATING) ==
            [Sight(ById("device"), Inactive, 0.0),
             Sight(ByTarget("serial"), Active, 100.0),
             Sight(ById("device"), Inactive, 101.0)]
  {
    OneRound(WITH_ID, Inactive, 0.0);
    OneRound(WITHOUT_ID, Active, 100.0);
    OneRound(WITH_ID, Inactive, 101.0);
    hide RoundSights;
    assert ALTERNATING[..2][..1] == ALTERNATING[..1] && ALTERNATING[..1][..0] == [];
    assert HistoryOf(ALTERNATING[..1]) == HistoryOf([]) + RoundSights(ALTERNATING[0]);
    assert HistoryOf(ALTERNATING[..2]) == HistoryOf(ALTERNATING[..1]) + RoundSights(ALTERNATING[1]);
    assert HistoryOf(ALTERNATING) == HistoryOf(ALTERNATING[..2]) + RoundSights(ALTERNATING[2]);
  }

  /** A gather with the one node answers the one entry without a lookup of its own. */
  lemma OneRound(item: Item, active: Activity, now: Time)
    requires item == WITH_ID || item == WITHOUT_ID
    ensures RoundSights(Round([Node(item, active)], [WITH_ID], now)) == [Sight(Primary(item).value, active, now)]
  {
    var nodes := [Node(item, active)];
    assert nodes[..0] == [] && Sights(nodes, now) == Sights([], now) + [Sight(Primary(item).value, active, now)];
    assert nodes[0].item.target == Some("serial") && HasTarget(nodes, "serial");
    if item == WITH_ID { assert nodes[0].item.deviceId == Some("device") && HasId(nodes, "device"); }
    assert Matched(nodes, WITH_ID);
    assert [WITH_ID][..0] == [] && RosterSights(nodes, [WITH_ID], now) == RosterSights(nodes, [], now) + [];
  }

  /**
   The price: at 101 s the device is denied a live session although the gather at 100 s saw it active,
   under its target.
   */
  lemma AlternatingKeysForget(verdicts: seq<bool>)
    requires VerdictsOk(ALTERNATING, 2, verdicts)
    ensures |verdicts| == 1 && !verdicts[0]
    ensures ALTERNATING[1].nodes[0].active == Active && ALTERNATING[1].nodes[0].item.target == WITH_ID.target
  {
    AlternatingHistory();
    var h := HistoryOf(ALTERNATING);
    assert ALTERNATING[..3] == ALTERNATING;
    var nodes := ALTERNATING[2].nodes;
    assert nodes[0].item.deviceId == Some("device") && AllIdentified(nodes);
    IdentifiedJoinsById(nodes, WITH_ID);
    assert h[..2][0].key == ById("device") && Seen(h[..2], ById("device"));
    assert !Stamps(h, 2);
    assert !LiveIn(h, ById("device"), 101.0);
    assert ALTERNATING[2].roster[0].deviceId.Some?;
  }

  class ProbeLoop {
    var lastLiveAt: map<LiveKey, Time>
    ghost var history: seq<Sight>

    ghost predicate Valid()
      reads this
    {
      && Ordered(history)
      && forall key :: LastStamp(history, key) == if key in lastLiveAt then Some(lastLiveAt[key]) else None
    }

    /** Every timestamp lies in the past. */
    predicate Until(now: Time)
      reads this
    {
      forall key :: key in lastLiveAt ==> lastLiveAt[key] <= now
    }

    constructor ()
      ensures Valid() && history == [] && forall now :: Until(now)
    {
      lastLiveAt, history := map[], [];
    }

    method ResolveLive(key: LiveKey, active: Activity, now: Time) returns (live: bool)
      requires Valid()
      requires active != Inactive && key in lastLiveAt ==> lastLiveAt[key] <= now
      modifies this
      ensures Valid() && history == old(history) + [Sight(key, active, now)]
      ensures old(Until(now)) ==> Until(now)
      ensures live == LiveIn(history, key, now)
    {
      hide LastStamp;
      hide LiveIn;
      hide Ordered;
      hide Seen;
      var s := Sight(key, active, now);
      assert LastStamp(history, key) == if key in lastLiveAt then Some(lastLiveAt[key]) else None;
      OrderedExtends(history, s);
      forall k { StampExtends(history, s, k); }
      history := history + [s];
      LastStampDecides(history, key, now);
      if active == Unknown {
        lastLiveAt := lastLiveAt[key := now];
        return true;
      }
      if active == Active {
        lastLiveAt := lastLiveAt[key := now];
        return true;
      }
      if key !in lastLiveAt {
        lastLiveAt := lastLiveAt[key := now];
        return true;
      }
      live := now - lastLiveAt[key] < SESSION_SETTLE_GRACE;
    }

    method LiveSessionFlags(nodes: seq<Node>, now: Time) returns (flags: map<LiveKey, bool>, owned: set<string>)
      requires Valid() && Until(now)
      modifies this
      ensures Valid() && Until(now) && history == old(history) + Sights(nodes, now)
      ensures FlagsOk(flags, owned, nodes, history, now) && TargetsOk(flags, nodes, old(history), now)
    {
      hide LastStamp;
      hide Ordered;
      flags, owned := map[], {};
      for i := 0 to |nodes|
        invariant Valid() && Until(now) && history == old(history) + Sights(nodes[..i], now)
        invariant FlagsOk(flags, owned, nodes[..i], history, now) && TargetsOk(flags, nodes[..i], old(history), now)
      {
        hide FlagsOk;
        hide TargetsOk;
        hide Sights;
        assert nodes[..i + 1] == nodes[..i] + [nodes[i]];
        flags, owned := FlagNode(flags, owned, nodes[i], now, nodes[..i], old(history));
      }
      assert nodes[..|nodes|] == nodes;
    }

    /** One node of the snapshot: look its key up and publish the verdict. */
    method FlagNode(flags: map<LiveKey, bool>, owned: set<string>, n: Node, now: Time, ghost done: seq<Node>,
                    ghost before: seq<Sight>)
      returns (more: map<LiveKey, bool>, taken: set<string>)
      requires Valid() && Until(now) && history == before + Sights(done, now)
      requires FlagsOk(flags, owned, done, history, now) && TargetsOk(flags, done, before, now)
      modifies this
      ensures Valid() && Until(now) && history == before + Sights(done + [n], now)
      ensures FlagsOk(more, taken, done + [n], history, now) && TargetsOk(more, done + [n], before, now)
    {
      hide LastStamp;
      hide Ordered;
      hide LiveIn;
      more, taken := flags, owned;
      ghost var h := history;
      assert (done + [n])[..|done|] == done;
      if Primary(n.item).None? {
        NodesExtend(done, n);
        KeylessKeepsTargets(flags, done, before, now, n);
        return;
      }
      hide FlagsOk;
      hide TargetsOk;
      var key := Primary(n.item).value;
      var verdict := ResolveLive(key, n.active, now);
      assert history == before + Sights(done + [n], now);
      more := more[key := verdict];
      if TargetKey(n.item).Some? {
        more := more[TargetKey(n.item).value := verdict];
        if IdKey(n.item).Some? {
          taken := taken + {n.item.target.value};
        }
      }
      PublishTargets(flags, done, before, now, n, verdict);
      PublishKeeps(flags, owned, done, h, now, n, verdict);
    }

    method ResolveEntry(flags: map<LiveKey, bool>, owned: set<string>, entry: Item, now: Time, ghost nodes: seq<Node>)
      returns (live: bool)
      requires Valid() && FlagsOk(flags, owned, nodes, history, now)
      modifies this
      ensures Valid() && (old(Until(now)) ==> Until(now))
      ensures history == old(history) + EntrySights(nodes, entry, now)
      ensures entry.deviceId.Some? ==>
                Seen(history, JoinKey(nodes, entry)) && live == LiveIn(history, JoinKey(nodes, entry), now)
      ensures entry.deviceId.None? && entry.target.Some? ==>
                var key := ByTarget(entry.target.value);
                live == if key in flags then flags[key] else LiveIn(history, key, now)
      ensures entry.deviceId.None? && entry.target.None? ==> !live
    {
      hide LastStamp;
      hide Ordered;
      var idKey, targetKey := IdKey(entry), TargetKey(entry);
      if idKey.Some? {
        if idKey.value in flags {
          return flags[idKey.value];
        }
        if targetKey.Some? && targetKey.value.target !in owned && targetKey.value in flags {
          return flags[targetKey.value];
        }
        live := ResolveLive(idKey.value, Inactive, now);
        SeenExtends(old(history), Sight(idKey.value, Inactive, now), idKey.value);
        return;
      }
      if targetKey.Some? {
        if targetKey.value in flags {
          return flags[targetKey.value];
        }
        live := ResolveLive(targetKey.value, Inactive, now);
        return;
      }
      live := false;
    }

    /**
     One gather. The history gains exactly what the gather looked up. An entry with a device id gets
     the verdict of its own id, or of its target when only nodes without an id serve that; it is live
     exactly when that key was seen active, unknown or for the first time less than 60 s ago.
     */
    method Gather(nodes: seq<Node>, roster: seq<Item>, now: Time) returns (verdicts: seq<bool>)
      requires Valid() && Until(now)
      modifies this
      ensures Valid() && Until(now) && |verdicts| == |roster|
      ensures history == old(history) + RoundSights(Round(nodes, roster, now))
      ensures forall i :: 0 <= i < |roster| && roster[i].deviceId.Some? ==>
                            && Seen(history, JoinKey(nodes, roster[i]))
                            && verdicts[i] == LiveIn(history, JoinKey(nodes, roster[i]), now)
    {
      hide LastStamp;
      hide Ordered;
      hide LiveIn;
      hide Seen;
      hide FlagsOk;
      hide TargetsOk;
      hide EntrySights;
      var flags, owned := LiveSessionFlags(nodes, now);
      verdicts := [];
      for i := 0 to |roster|
        invariant Valid() && Until(now) && |verdicts| == i
        invariant FlagsOk(flags, owned, nodes, history, now)
        invariant history == old(history) + Sights(nodes, now) + RosterSights(nodes, roster[..i], now)
        invariant forall j :: 0 <= j < i && roster[j].deviceId.Some? ==>
                                && Seen(history, JoinKey(nodes, roster[j]))
                                && verdicts[j] == LiveIn(history, JoinKey(nodes, roster[j]), now)
      {
        assert roster[..i + 1][..i] == roster[..i];
        ghost var before := history;
        var live := ResolveEntry(flags, owned, roster[i], now, nodes);
        EntryIsQuiet(before, nodes, roster[i], now);
        FlagsStand(flags, owned, nodes, before, history, now);
        forall j | 0 <= j < i && roster[j].deviceId.Some?
          ensures Seen(history, JoinKey(nodes, roster[j]))
          ensures LiveIn(history, JoinKey(nodes, roster[j]), now) == LiveIn(before, JoinKey(nodes, roster[j]), now)
        {
          VerdictStands(before, history, now, JoinKey(nodes, roster[j]));
        }
        verdicts := verdicts + [live];
      }
      assert roster[..|roster|] == roster;
    }

    /** Any number of gathers in a row, on a clock that does not run backwards. */
    method GatherAll(rounds: seq<Round>) returns (verdicts: seq<seq<bool>>)
      requires Valid() && history == [] && Clocked(rounds)
      modifies this
      ensures |verdicts| == |rounds|
      ensures forall n :: 0 <= n < |rounds| ==> VerdictsOk(rounds, n, verdicts[n])
    {
      hide VerdictsOk;
      hide LastStamp;
      hide Ordered;
      hide LiveIn;
      hide Seen;
      hide RoundSights;
      EmptyUntil();
      verdicts := [];
      for n := 0 to |rounds|
        invariant Valid() && history == HistoryOf(rounds[..n]) && |verdicts| == n
        invariant n < |rounds| ==> Until(rounds[n].now)
        invariant forall m :: 0 <= m < n ==> VerdictsOk(rounds, m, verdicts[m])
      {
        var g := rounds[n];
        assert rounds[..n + 1][..n] == rounds[..n];
        var next := Gather(g.nodes, g.roster, g.now);
        assert g == Round(g.nodes, g.roster, g.now);
        assert VerdictsOk(rounds, n, next) by { Judged(rounds, n, next, history); }
        verdicts := verdicts + [next];
      }
    }

    lemma EmptyUntil()
      requires Valid() && history == []
      ensures forall now :: Until(now)
    {
      assert forall key :: LastStamp(history, key) == None;
    }
  }
}
