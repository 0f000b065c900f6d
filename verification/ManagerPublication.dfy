/**
 What a status push publishes: the event ring truncated at the lowest crash still withheld
 (`_active_withholds` and the tail of `process_snapshot`).
 */
module ManagerPublication {
  import opened Options
  import opened ManagerState
  import opened ManagerSteps
  import opened ManagerInvariant
  import opened ManagerOperations
  import opened ManagerTransitions
  import opened ManagerSafety

  /** Still inside its wall-clock backstop. */
  predicate Active(w: Withheld, now: Time) {
    now < w.expiresAt
  }

  /** The lowest active withheld sequence, if any. */
  ghost predicate IsTruncation(withheld: map<Port, Withheld>, now: Time, cut: Option<nat>) {
    match cut
    case None => forall p :: p in withheld ==> !Active(withheld[p], now)
    case Some(n) =>
      && (exists p :: p in withheld && Active(withheld[p], now) && withheld[p].sequence == n)
      && (forall p :: p in withheld && Active(withheld[p], now) ==> n <= withheld[p].sequence)
  }

  /** The events of the ring that are sent. */
  function Emit(ring: seq<Event>, cut: Option<nat>): (r: seq<Event>) {
    if ring == [] then []
    else
      var e := ring[|ring| - 1];
      Emit(ring[..|ring| - 1], cut) + (if cut.None? || e.sequence < cut.value then [e] else [])
  }

  /** The highest sequence number a push may contain. */
  function Horizon(m: Manager, cut: Option<nat>): (r: int) {
    if cut.None? then m.lastSequence else cut.value - 1
  }

  lemma TruncationIsUnique(withheld: map<Port, Withheld>, now: Time, a: Option<nat>, b: Option<nat>)
    requires IsTruncation(withheld, now, a) && IsTruncation(withheld, now, b)
    ensures a == b
  {
  }

  lemma {:induction false} TruncationExists(withheld: map<Port, Withheld>, now: Time) returns (cut: Option<nat>)
    ensures IsTruncation(withheld, now, cut)
    decreases |withheld|
  {
    if p :| p in withheld {
      var rest := withheld - {p};
      assert withheld.Keys == rest.Keys + {p};
      var below := TruncationExists(rest, now);
      if !Active(withheld[p], now) {
        cut := below;
      } else if below.None? || withheld[p].sequence < below.value {
        cut := Some(withheld[p].sequence);
      } else {
        cut := below;
      }
      if cut.Some? && cut == below {
        var q :| q in rest && Active(rest[q], now) && rest[q].sequence == cut.value;
        assert withheld[q] == rest[q];
      }
      forall q | q in withheld && Active(withheld[q], now) ensures cut.Some? && cut.value <= withheld[q].sequence {
        if q != p { assert q in rest && rest[q] == withheld[q]; }
      }
    } else {
      cut := None;
    }
  }

  /** Where the cut falls in a list numbered from one. */
  function CutAt(n: nat, base: nat, cut: Option<nat>): (hi: nat)
    requires base <= n
    ensures base <= hi <= n
  {
    if cut.None? then n else if cut.value - 1 < base then base else if cut.value - 1 > n then n else cut.value - 1
  }

  /** A numbered list is cut to a prefix. */
  lemma {:induction false} EmitIsPrefix(history: seq<Event>, base: nat, cut: Option<nat>)
    requires base <= |history|
    requires forall i :: 0 <= i < |history| ==> history[i].sequence == i + 1
    ensures Emit(history[base..], cut) == history[base..CutAt(|history|, base, cut)]
    decreases |history| - base
  {
    var n := |history|;
    if base == n {
      assert history[base..] == [];
    } else {
      EmitStep(history, base, cut);
      EmitIsPrefix(history[..n - 1], base, cut);
      CutGrows(history, base, cut);
      hide Emit; hide CutAt;
    }
  }

  lemma CutGrows(history: seq<Event>, base: nat, cut: Option<nat>)
    requires base < |history| && history[|history| - 1].sequence == |history|
    ensures var n := |history|;
            history[..n - 1][base..CutAt(n - 1, base, cut)] + (if cut.None? || history[n - 1].sequence < cut.value
                                                               then [history[n - 1]] else [])
            == history[base..CutAt(n, base, cut)]
  {
    var n := |history|;
    var hi := CutAt(n - 1, base, cut);
    assert history[..n - 1][base..hi] == history[base..hi];
    if cut.None? || n < cut.value { SliceGrows(history, base); }
  }

  lemma SliceGrows(history: seq<Event>, base: nat)
    requires base < |history|
    ensures history[base..|history| - 1] + [history[|history| - 1]] == history[base..|history|]
  {
  }

  lemma EmitStep(history: seq<Event>, base: nat, cut: Option<nat>)
    requires base < |history|
    ensures var n := |history|;
            Emit(history[base..], cut) ==
            Emit(history[..n - 1][base..], cut) + (if cut.None? || history[n - 1].sequence < cut.value
                                                   then [history[n - 1]] else [])
  {
    var ring := history[base..];
    assert ring[..|ring| - 1] == history[..|history| - 1][base..];
    assert ring[|ring| - 1] == history[|history| - 1];
  }

  lemma {:induction false} ChronicleNumbers(h: seq<Event>, now: Time)
    requires Chronicle(h, now)
    ensures forall i :: 0 <= i < |h| ==> h[i].sequence == i + 1 && h[i].at <= now
    ensures forall i, j :: 0 <= i <= j < |h| ==> h[i].at <= h[j].at
  {
    if h != [] {
      var rest := h[..|h| - 1];
      ChronicleNumbers(rest, h[|h| - 1].at);
      assert forall i :: 0 <= i < |rest| ==> rest[i] == h[i];
    }
  }

  /** Where the ring starts in the history. */
  function Base(s: Sys): (r: nat) {
    if |s.audit.history| <= MAX_RESTART_EVENTS then 0 else |s.audit.history| - MAX_RESTART_EVENTS
  }

  function UpperEnd(s: Sys, cut: Option<nat>): (r: int) {
    if Horizon(s.m, cut) < Base(s) then Base(s) else Horizon(s.m, cut)
  }

  /** Every push is one contiguous stretch of everything ever recorded, ending at the horizon. */
  lemma PushIsContiguous(s: Sys, cut: Option<nat>)
    requires Inv(s) && IsTruncation(s.m.withheld, s.now, cut)
    ensures 0 <= Base(s) <= UpperEnd(s, cut) <= |s.audit.history|
    ensures Emit(s.m.ring, cut) == s.audit.history[Base(s)..UpperEnd(s, cut)]
  {
    hide NodesOk; hide TasksOk; hide OwnersOk; hide AttemptsOk; hide RunsOk; hide RecordsOk;
    var h := s.audit.history;
    ChronicleNumbers(h, s.now);
    assert s.m.ring == h[Base(s)..];
    if cut.Some? {
      var p :| p in s.m.withheld && Active(s.m.withheld[p], s.now) && s.m.withheld[p].sequence == cut.value;
      RecordNamed(s, p);
    }
    EmitIsPrefix(h, Base(s), cut);
  }

  lemma RecordNamed(s: Sys, p: Port)
    requires Inv(s) && p in s.m.withheld
    ensures 1 <= s.m.withheld[p].sequence <= |s.audit.history| == s.m.lastSequence
    ensures s.audit.history[s.m.withheld[p].sequence - 1].at == s.m.withheld[p].armedAt
    ensures s.m.withheld[p].expiresAt == s.m.withheld[p].armedAt + FIRST_RESTART_WITHHOLD_MAX_SEC
    ensures p in s.m.nodes.info
  {
    hide NodesOk; hide TasksOk; hide OwnersOk; hide AttemptsOk; hide RunsOk; hide Chronicle; hide AccountOk;
    assert RecordOk(p, s.m.withheld[p], s.audit.history, s.audit.accounts, s.m.attempts, s.m.nodes.info);
  }

  /** No event stays unpublished for more than 60 s after it was recorded, whatever happened to the withhold's owner. */
  lemma SuppressionIsBounded(s: Sys, cut: Option<nat>, i: nat)
    requires Reachable(s) && IsTruncation(s.m.withheld, s.now, cut) && i < |s.m.ring|
    requires s.now >= s.m.ring[i].at + FIRST_RESTART_WITHHOLD_MAX_SEC
    ensures s.m.ring[i] in Emit(s.m.ring, cut)
  {
    hide Inv; hide Emit; hide Reachable;
    ReachableInv(s);
    PushIsContiguous(s, cut);
    RingInHistory(s);
    var h := s.audit.history;
    var k := Base(s) + i;
    if cut.Some? {
      var p :| p in s.m.withheld && Active(s.m.withheld[p], s.now) && s.m.withheld[p].sequence == cut.value;
      RecordNamed(s, p);
      assert h[cut.value - 1].at + FIRST_RESTART_WITHHOLD_MAX_SEC > s.now;
      assert k < cut.value - 1;
    }
    assert k < UpperEnd(s, cut);
    assert h[Base(s)..UpperEnd(s, cut)][i] == h[k];
  }

  lemma RingInHistory(s: Sys)
    requires Inv(s)
    ensures s.m.ring == s.audit.history[Base(s)..] && |s.audit.history| == s.m.lastSequence
    ensures forall i, j :: 0 <= i <= j < |s.audit.history| ==> s.audit.history[i].at <= s.audit.history[j].at
  {
    hide NodesOk; hide TasksOk; hide OwnersOk; hide AttemptsOk; hide RunsOk; hide RecordsOk;
    ChronicleNumbers(s.audit.history, s.now);
  }
}
