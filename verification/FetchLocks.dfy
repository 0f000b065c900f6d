/**
 The per-target lock table of the tarball download (agent/agent_app/pack/tarball_fetch.py).
 Callers of one target path share one counted lock entry, created on first use and dropped by the
 last to leave. The file on disk may be changed by anything at any time.
 */
module FetchLocks {
  import opened Options

  type Key = string
  type Digest = string
  type CallerId = nat
  type EntryId = nat

  /** Inside the lock: compare the file on disk, fetch and compare the body, or return the path. */
  datatype Stage = Checking | Fetching | Done

  datatype Phase = Waiting | Holding(stage: Stage) | Releasing(success: bool)

  datatype Caller = Caller(key: Key, expected: Digest, entry: EntryId, phase: Phase)

  datatype Entry = Entry(key: Key, users: int, holder: Option<CallerId>)

  /**
   table maps a path to its entry; entries are the lock objects by identity. witnessed only records
   who had the expected digest on disk while holding the lock; no step reads it to decide.
   */
  datatype System = System(
    table: map<Key, EntryId>,
    entries: map<EntryId, Entry>,
    callers: map<CallerId, Caller>,
    disk: map<Key, Digest>,
    nextEntry: EntryId,
    returned: set<CallerId>,
    witnessed: set<CallerId>)

  datatype Action = Enter(c: CallerId, key: Key, expected: Digest)
                  | Acquire(c: CallerId)
                  | GiveUpWaiting(c: CallerId)
                  | Check(c: CallerId)
                  | Store(c: CallerId, body: Digest)
                  | FetchFails(c: CallerId)
                  | Finish(c: CallerId)
                  | Leave(c: CallerId)
                  | DiskChanges(key: Key, content: Option<Digest>)

  const INITIAL := System(map[], map[], map[], map[], 0, {}, {})

  predicate In(s: System, c: CallerId) {
    c in s.callers && s.callers[c].entry in s.entries
  }

  predicate Enabled(s: System, a: Action) {
    match a
    case Enter(c, key, expected) => c !in s.callers && c !in s.returned && c !in s.witnessed
                                    && (key in s.table ==> s.table[key] in s.entries)
    case Acquire(c) => In(s, c) && s.callers[c].phase.Waiting? && s.entries[s.callers[c].entry].holder.None?
    case GiveUpWaiting(c) => In(s, c) && s.callers[c].phase.Waiting?
    case Check(c) => In(s, c) && s.callers[c].phase == Holding(Checking)
    case Store(c, body) => In(s, c) && s.callers[c].phase == Holding(Fetching)
    case FetchFails(c) => In(s, c) && s.callers[c].phase.Holding?
    case Finish(c) => In(s, c) && s.callers[c].phase == Holding(Done)
    case Leave(c) => In(s, c) && s.callers[c].phase.Releasing?
    case DiskChanges(key, content) => true
  }

  function Moved(s: System, c: CallerId, phase: Phase): (r: System)
    requires c in s.callers
  {
    s.(callers := s.callers[c := s.callers[c].(phase := phase)])
  }

  function Locked(s: System, e: EntryId, holder: Option<CallerId>): (r: System)
    requires e in s.entries
  {
    s.(entries := s.entries[e := s.entries[e].(holder := holder)])
  }

  /** Get or create the entry and count the caller in, under the table's own lock. */
  function Entered(s: System, c: CallerId, key: Key, expected: Digest): (r: System)
    requires key in s.table ==> s.table[key] in s.entries
  {
    if key in s.table then
      var e := s.table[key];
      s.(entries := s.entries[e := s.entries[e].(users := s.entries[e].users + 1)],
         callers := s.callers[c := Caller(key, expected, e, Waiting)])
    else
      s.(table := s.table[key := s.nextEntry], entries := s.entries[s.nextEntry := Entry(key, 1, None)],
         callers := s.callers[c := Caller(key, expected, s.nextEntry, Waiting)], nextEntry := s.nextEntry + 1)
  }

  /** Count the caller out; the last one drops the entry, if the table still holds that very entry. */
  function Gone(s: System, c: CallerId): (r: System)
    requires In(s, c)
  {
    var caller := s.callers[c];
    var e := caller.entry;
    var users := s.entries[e].users - 1;
    var left := s.(callers := s.callers - {c}, returned := if caller.phase == Releasing(true) then s.returned + {c}
                   else s.returned);
    if users == 0 && caller.key in s.table && s.table[caller.key] == e
    then left.(table := s.table - {caller.key}, entries := s.entries - {e})
    else left.(entries := s.entries[e := s.entries[e].(users := users)])
  }

  predicate OnDisk(s: System, c: CallerId) {
    c in s.callers && s.callers[c].key in s.disk && s.disk[s.callers[c].key] == s.callers[c].expected
  }

  /** Note whether the expected digest is on disk while the caller holds the lock. */
  function Witnessed(s: System, c: CallerId): (r: System) {
    if OnDisk(s, c) && s.callers[c].phase.Holding? then s.(witnessed := s.witnessed + {c}) else s
  }

  /** The file already there decides whether anything is fetched. */
  function Checked(s: System, c: CallerId): (r: System)
    requires c in s.callers
  {
    Moved(s, c, Holding(if OnDisk(s, c) then Done else Fetching))
  }

  /** Only a body with the expected digest replaces the file; any other raises. */
  function Stored(s: System, c: CallerId, body: Digest): (r: System)
    requires In(s, c)
  {
    if body != s.callers[c].expected then Locked(Moved(s, c, Releasing(false)), s.callers[c].entry, None)
    else Moved(s.(disk := s.disk[s.callers[c].key := body]), c, Holding(Done))
  }

  function Apply(s: System, a: Action): (r: System)
    requires Enabled(s, a)
  {
    match a
    case Enter(c, key, expected) => Entered(s, c, key, expected)
    case Acquire(c) => Locked(Moved(s, c, Holding(Checking)), s.callers[c].entry, Some(c))
    case GiveUpWaiting(c) => Moved(s, c, Releasing(false))
    case Check(c) => Witnessed(Checked(s, c), c)
    case Store(c, body) => Witnessed(Stored(s, c, body), c)
    case FetchFails(c) => Locked(Moved(s, c, Releasing(false)), s.callers[c].entry, None)
    case Finish(c) => Locked(Moved(s, c, Releasing(true)), s.callers[c].entry, None)
    case Leave(c) => Gone(s, c)
    case DiskChanges(key, content) =>
      s.(disk := if content.Some? then s.disk[key := content.value] else s.disk - {key})
  }

  ghost predicate IsRun(s: System, actions: seq<Action>, r: System)
    decreases |actions|
  {
    if actions == [] then r == s
    else Enabled(s, actions[0]) && IsRun(Apply(s, actions[0]), actions[1..], r)
  }

  ghost predicate Reachable(s: System) {
    exists actions :: IsRun(INITIAL, actions, s)
  }

  // What every reachable state satisfies.

  function Users(callers: map<CallerId, Caller>, e: EntryId): (r: set<CallerId>) {
    set c | c in callers && callers[c].entry == e
  }

  /** Every caller uses the entry the table has for its path. */
  predicate SharedOk(table: map<Key, EntryId>, entries: map<EntryId, Entry>, callers: map<CallerId, Caller>) {
    forall c :: c in callers ==>
                  && callers[c].key in table && table[callers[c].key] == callers[c].entry
                  && callers[c].entry in entries
  }

  predicate TableOk(table: map<Key, EntryId>, entries: map<EntryId, Entry>, nextEntry: EntryId) {
    && (forall key :: key in table ==> table[key] in entries && entries[table[key]].key == key)
    && (forall e :: e in entries ==> e < nextEntry && entries[e].key in table && table[entries[e].key] == e)
  }

  /** The count is the number of callers, and never zero. */
  predicate CountsOk(entries: map<EntryId, Entry>, callers: map<CallerId, Caller>) {
    forall e :: e in entries ==> entries[e].users == |Users(callers, e)| && entries[e].users > 0
  }

  predicate HoldersOk(entries: map<EntryId, Entry>, callers: map<CallerId, Caller>) {
    && (forall c :: c in callers && callers[c].phase.Holding? && callers[c].entry in entries ==>
                      entries[callers[c].entry].holder == Some(c))
    && (forall e :: e in entries && entries[e].holder.Some? ==>
                      && entries[e].holder.value in callers
                      && callers[entries[e].holder.value].phase.Holding?
                      && callers[entries[e].holder.value].entry == e)
  }

  predicate WitnessOk(callers: map<CallerId, Caller>, returned: set<CallerId>, witnessed: set<CallerId>) {
    && returned <= witnessed
    && (forall c :: c in callers && (callers[c].phase == Holding(Done) || callers[c].phase == Releasing(true)) ==>
          c in witnessed)
  }

  predicate Inv(s: System) {
    && SharedOk(s.table, s.entries, s.callers)
    && TableOk(s.table, s.entries, s.nextEntry)
    && CountsOk(s.entries, s.callers)
    && HoldersOk(s.entries, s.callers)
    && WitnessOk(s.callers, s.returned, s.witnessed)
  }

  /** The users of an entry after one more caller came in. */
  lemma UsersAfterEnter(callers: map<CallerId, Caller>, c: CallerId, caller: Caller)
    requires c !in callers
    ensures |Users(callers[c := caller], caller.entry)| == |Users(callers, caller.entry)| + 1
    ensures forall e :: e != caller.entry ==> Users(callers[c := caller], e) == Users(callers, e)
  {
    assert Users(callers[c := caller], caller.entry) == Users(callers, caller.entry) + {c};
  }

  lemma NewEntryUnused(s: System)
    requires Inv(s)
    ensures s.nextEntry !in s.entries && Users(s.callers, s.nextEntry) == {}
  {
    assert s.nextEntry !in s.entries;
    assert forall d :: d in s.callers ==> s.callers[d].entry in s.entries;
  }

  lemma EnterCounts(s: System, c: CallerId, key: Key, expected: Digest)
    requires Inv(s) && Enabled(s, Enter(c, key, expected))
    ensures CountsOk(Entered(s, c, key, expected).entries, Entered(s, c, key, expected).callers)
  {
    NewEntryUnused(s);
    UsersAfterEnter(s.callers, c, Entered(s, c, key, expected).callers[c]);
    hide HoldersOk;
    hide WitnessOk;
    hide SharedOk;
    hide TableOk;
    hide Users;
  }

  lemma EnterTables(s: System, c: CallerId, key: Key, expected: Digest)
    requires Inv(s) && Enabled(s, Enter(c, key, expected))
    ensures var r := Entered(s, c, key, expected); TableOk(r.table, r.entries, r.nextEntry)
  {
    hide CountsOk;
    hide HoldersOk;
    hide WitnessOk;
    hide SharedOk;
  }

  lemma EnterShares(s: System, c: CallerId, key: Key, expected: Digest)
    requires Inv(s) && Enabled(s, Enter(c, key, expected))
    ensures var r := Entered(s, c, key, expected);
            SharedOk(r.table, r.entries, r.callers) && WitnessOk(r.callers, r.returned, r.witnessed)
  {
    hide CountsOk;
    hide HoldersOk;
    hide TableOk;
  }

  /** A waiting newcomer changes no holder. */
  lemma NewcomerHoldsNothing(entries: map<EntryId, Entry>, callers: map<CallerId, Caller>, e: EntryId, entry: Entry,
                             c: CallerId, caller: Caller)
    requires HoldersOk(entries, callers) && c !in callers && caller.phase.Waiting?
    requires forall d :: d in callers ==> callers[d].entry in entries
    requires if e in entries then entry.holder == entries[e].holder else entry.holder == None
    ensures HoldersOk(entries[e := entry], callers[c := caller])
  {
  }

  lemma EnterHolders(s: System, c: CallerId, key: Key, expected: Digest)
    requires Inv(s) && Enabled(s, Enter(c, key, expected))
    ensures var r := Entered(s, c, key, expected); HoldersOk(r.entries, r.callers)
  {
    NewEntryUnused(s);
    assert forall d :: d in s.callers ==> s.callers[d].entry in s.entries;
    var r := Entered(s, c, key, expected);
    var e := r.callers[c].entry;
    hide CountsOk;
    hide TableOk;
    hide SharedOk;
    hide WitnessOk;
    hide Users;
    hide HoldersOk;
    NewcomerHoldsNothing(s.entries, s.callers, e, r.entries[e], c, r.callers[c]);
  }

  lemma EnterKeeps(s: System, c: CallerId, key: Key, expected: Digest)
    requires Inv(s) && Enabled(s, Enter(c, key, expected))
    ensures Inv(Entered(s, c, key, expected))
  {
    EnterCounts(s, c, key, expected);
    EnterTables(s, c, key, expected);
    EnterShares(s, c, key, expected);
    EnterHolders(s, c, key, expected);
    hide CountsOk;
    hide TableOk;
    hide SharedOk;
    hide HoldersOk;
    hide WitnessOk;
  }

  /** The count tells whether anyone else uses the entry. */
  lemma LastUser(s: System, c: CallerId)
    requires Inv(s) && In(s, c)
    ensures c in Users(s.callers, s.callers[c].entry)
    ensures s.entries[s.callers[c].entry].users == 1 ==>
              forall d :: d in s.callers && s.callers[d].entry == s.callers[c].entry ==> d == c
  {
    var users := Users(s.callers, s.callers[c].entry);
    assert c in users;
    if |users| == 1 {
      assert |users - {c}| == 0;
      forall d | d in s.callers && s.callers[d].entry == s.callers[c].entry ensures d == c {
        assert d in users;
        assert d !in users - {c};
      }
    }
  }

  lemma UsersAfterLeave(callers: map<CallerId, Caller>, c: CallerId)
    requires c in callers
    ensures |Users(callers - {c}, callers[c].entry)| == |Users(callers, callers[c].entry)| - 1
    ensures forall e :: e != callers[c].entry ==> Users(callers - {c}, e) == Users(callers, e)
  {
    assert c in Users(callers, callers[c].entry);
    assert Users(callers - {c}, callers[c].entry) == Users(callers, callers[c].entry) - {c};
  }

  lemma LeaveCounts(s: System, c: CallerId)
    requires Inv(s) && Enabled(s, Leave(c))
    ensures CountsOk(Gone(s, c).entries, Gone(s, c).callers)
  {
    UsersAfterLeave(s.callers, c);
    assert s.callers[c].key in s.table && s.table[s.callers[c].key] == s.callers[c].entry;
    hide HoldersOk;
    hide WitnessOk;
    hide SharedOk;
    hide TableOk;
    hide Users;
    var r, mine := Gone(s, c), s.callers[c].entry;
    assert r.callers == s.callers - {c};
    forall e | e in r.entries ensures r.entries[e].users == |Users(r.callers, e)| && r.entries[e].users > 0 {
      assert e != mine ==> r.entries[e] == s.entries[e];
    }
  }

  lemma LeaveTables(s: System, c: CallerId)
    requires Inv(s) && Enabled(s, Leave(c))
    ensures var r := Gone(s, c); SharedOk(r.table, r.entries, r.callers) && TableOk(r.table, r.entries, r.nextEntry)
  {
    LastUser(s, c);
    hide CountsOk;
    hide HoldersOk;
    hide WitnessOk;
    hide Users;
  }

  lemma LeaveHolders(s: System, c: CallerId)
    requires Inv(s) && Enabled(s, Leave(c))
    ensures var r := Gone(s, c); HoldersOk(r.entries, r.callers) && WitnessOk(r.callers, r.returned, r.witnessed)
  {
    hide CountsOk;
    hide TableOk;
    hide SharedOk;
  }

  lemma LeaveKeeps(s: System, c: CallerId)
    requires Inv(s) && Enabled(s, Leave(c))
    ensures Inv(Gone(s, c))
  {
    LeaveCounts(s, c);
    LeaveTables(s, c);
    LeaveHolders(s, c);
    hide CountsOk;
    hide TableOk;
    hide SharedOk;
    hide HoldersOk;
    hide WitnessOk;
  }

  /** A step that changes phases and holders only leaves the tables and counts as they were. */
  lemma PhaseKeepsCounts(s: System, c: CallerId, phase: Phase)
    requires c in s.callers && CountsOk(s.entries, s.callers) && SharedOk(s.table, s.entries, s.callers)
    ensures CountsOk(s.entries, Moved(s, c, phase).callers) && SharedOk(s.table, s.entries, Moved(s, c, phase).callers)
  {
    forall e ensures Users(Moved(s, c, phase).callers, e) == Users(s.callers, e) { }
  }

  lemma LockKeepsCounts(s: System, e: EntryId, holder: Option<CallerId>)
    requires e in s.entries && CountsOk(s.entries, s.callers)
    requires SharedOk(s.table, s.entries, s.callers) && TableOk(s.table, s.entries, s.nextEntry)
    ensures var r := Locked(s, e, holder);
            && CountsOk(r.entries, r.callers) && SharedOk(r.table, r.entries, r.callers)
            && TableOk(r.table, r.entries, r.nextEntry)
  {
    hide Users;
  }

  lemma MoveHolders(s: System, a: Action)
    requires Inv(s) && Enabled(s, a) && (a.Acquire? || a.GiveUpWaiting? || a.FetchFails? || a.Finish?)
    ensures var r := Apply(s, a); HoldersOk(r.entries, r.callers) && WitnessOk(r.callers, r.returned, r.witnessed)
  {
    hide CountsOk;
    hide TableOk;
    hide SharedOk;
  }

  lemma MoveKeeps(s: System, a: Action)
    requires Inv(s) && Enabled(s, a) && (a.Acquire? || a.GiveUpWaiting? || a.FetchFails? || a.Finish?)
    ensures Inv(Apply(s, a))
  {
    MoveHolders(s, a);
    var phase := Apply(s, a).callers[a.c].phase;
    PhaseKeepsCounts(s, a.c, phase);
    if !a.GiveUpWaiting? {
      LockKeepsCounts(Moved(s, a.c, phase), s.callers[a.c].entry, if a.Acquire? then Some(a.c) else None);
    }
    hide CountsOk;
    hide TableOk;
    hide SharedOk;
    hide HoldersOk;
    hide WitnessOk;
  }

  lemma CheckKeeps(s: System, c: CallerId)
    requires Inv(s) && Enabled(s, Check(c))
    ensures Inv(Apply(s, Check(c)))
  {
    CheckHolders(s, c);
    PhaseKeepsCounts(s, c, Checked(s, c).callers[c].phase);
    hide CountsOk;
    hide TableOk;
    hide SharedOk;
    hide HoldersOk;
    hide WitnessOk;
  }

  lemma CheckHolders(s: System, c: CallerId)
    requires Inv(s) && Enabled(s, Check(c))
    ensures var r := Apply(s, Check(c));
            HoldersOk(r.entries, r.callers) && WitnessOk(r.callers, r.returned, r.witnessed)
  {
    hide CountsOk;
    hide TableOk;
    hide SharedOk;
  }

  /** A body with another digest leaves the section as any failure does. */
  lemma WrongBodyFails(s: System, c: CallerId, body: Digest)
    requires Enabled(s, Store(c, body)) && body != s.callers[c].expected
    ensures Apply(s, Store(c, body)) == Apply(s, FetchFails(c))
  {
  }

  lemma StoreHolders(s: System, c: CallerId)
    requires Inv(s) && c in s.callers && Enabled(s, Store(c, s.callers[c].expected))
    ensures var r := Apply(s, Store(c, s.callers[c].expected));
            HoldersOk(r.entries, r.callers) && WitnessOk(r.callers, r.returned, r.witnessed)
  {
    hide CountsOk;
    hide TableOk;
    hide SharedOk;
  }

  lemma StoreKeeps(s: System, c: CallerId, body: Digest)
    requires Inv(s) && Enabled(s, Store(c, body))
    ensures Inv(Apply(s, Store(c, body)))
  {
    hide CountsOk;
    hide TableOk;
    hide SharedOk;
    hide HoldersOk;
    hide WitnessOk;
    if body != s.callers[c].expected {
      WrongBodyFails(s, c, body);
      MoveKeeps(s, FetchFails(c));
    } else {
      StoreHolders(s, c);
      PhaseKeepsCounts(s, c, Holding(Done));
    }
  }

  lemma StepKeeps(s: System, a: Action)
    requires Inv(s) && Enabled(s, a)
    ensures Inv(Apply(s, a))
  {
    hide CountsOk;
    hide TableOk;
    hide SharedOk;
    hide HoldersOk;
    hide WitnessOk;
    match a
    case Enter(c, key, expected) => EnterKeeps(s, c, key, expected);
    case Leave(c) => LeaveKeeps(s, c);
    case Check(c) => CheckKeeps(s, c);
    case Store(c, body) => StoreKeeps(s, c, body);
    case DiskChanges(_, _) =>
    case _ => MoveKeeps(s, a);
  }

  lemma {:induction false} RunKeeps(s: System, actions: seq<Action>, r: System)
    requires Inv(s) && IsRun(s, actions, r)
    ensures Inv(r)
    decreases |actions|
  {
    if actions != [] {
      StepKeeps(s, actions[0]);
      hide Inv;
      RunKeeps(Apply(s, actions[0]), actions[1..], r);
    }
  }

  lemma ReachableInv(s: System)
    requires Reachable(s)
    ensures Inv(s)
  {
    var actions :| IsRun(INITIAL, actions, s);
    RunKeeps(INITIAL, actions, s);
  }

  /** All active callers of a path share the one entry in the table, and its count is their number. */
  lemma CallersShareOneEntry(s: System, c: CallerId, d: CallerId)
    requires Reachable(s) && c in s.callers && d in s.callers && s.callers[c].key == s.callers[d].key
    ensures s.callers[c].entry == s.callers[d].entry && s.callers[c].key in s.table
            && s.table[s.callers[c].key] == s.callers[c].entry
    ensures s.callers[c].entry in s.entries
    ensures s.entries[s.callers[c].entry].users == |set x | x in s.callers && s.callers[x].key == s.callers[c].key|
  {
    ReachableInv(s);
    var e := s.callers[c].entry;
    assert Users(s.callers, e) == set x | x in s.callers && s.callers[x].key == s.callers[c].key;
  }

  /** At most one caller of a path is inside the fetch section. */
  lemma FetchesExclude(s: System, c: CallerId, d: CallerId)
    requires Reachable(s) && c in s.callers && d in s.callers && s.callers[c].key == s.callers[d].key
    requires s.callers[c].phase.Holding? && s.callers[d].phase.Holding?
    ensures c == d
  {
    ReachableInv(s);
    CallersShareOneEntry(s, c, d);
  }

  /** The table holds an entry for a path exactly while some caller of that path is active. */
  lemma EntryLivesWithCallers(s: System, key: Key)
    requires Reachable(s)
    ensures key in s.table <==> exists c :: c in s.callers && s.callers[c].key == key
  {
    ReachableInv(s);
    if key in s.table {
      var e := s.table[key];
      assert |Users(s.callers, e)| > 0;
      var c :| c in Users(s.callers, e);
      assert s.table[s.callers[c].key] == e && s.entries[e].key == s.callers[c].key;
    }
  }

  /** A caller that got its path back saw the expected digest on disk while it held the lock. */
  lemma ReturnedWasVerified(s: System, c: CallerId)
    requires Reachable(s) && c in s.returned
    ensures c in s.witnessed
  {
    ReachableInv(s);
  }

  /** A witness is only ever recorded for the lock's holder, with the digest on disk. */
  lemma WitnessIsReal(s: System, a: Action, c: CallerId)
    requires Reachable(s) && Enabled(s, a)
    requires c !in s.witnessed && c in Apply(s, a).witnessed
    ensures var r := Apply(s, a);
            && c in r.callers && r.callers[c].key in r.disk && r.disk[r.callers[c].key] == r.callers[c].expected
            && r.callers[c].entry in r.entries && r.entries[r.callers[c].entry].holder == Some(c)
  {
    ReachableInv(s);
  }

  // The table as the module holds it.

  /** How many users each path's entry counts. */
  function CountsOf(table: map<Key, EntryId>, entries: map<EntryId, Entry>): (r: map<Key, int>) {
    map key | key in table && table[key] in entries :: entries[table[key]].users
  }

  function Admitted(counts: map<Key, int>, key: Key): (r: map<Key, int>) {
    counts[key := if key in counts then counts[key] + 1 else 1]
  }

  function Dismissed(counts: map<Key, int>, key: Key): (r: map<Key, int>)
    requires key in counts
  {
    if counts[key] == 1 then counts - {key} else counts[key := counts[key] - 1]
  }

  /** No other path leads to the entry of this one. */
  predicate Alone(table: map<Key, EntryId>, key: Key, e: EntryId) {
    forall k :: k in table && k != key ==> table[k] != e
  }

  lemma TableIsInjective(s: System, key: Key)
    requires Inv(s)
    ensures Alone(s.table, key, s.nextEntry)
    ensures key in s.table ==> s.table[key] in s.entries && Alone(s.table, key, s.table[key])
  {
    hide CountsOk;
    hide HoldersOk;
    hide WitnessOk;
    hide SharedOk;
  }

  lemma CountsUpdated(table: map<Key, EntryId>, entries: map<EntryId, Entry>, key: Key, e: EntryId, entry: Entry)
    requires Alone(table, key, e)
    ensures CountsOf(table[key := e], entries[e := entry]) == CountsOf(table, entries)[key := entry.users]
  {
  }

  lemma CountsDropped(table: map<Key, EntryId>, entries: map<EntryId, Entry>, key: Key, e: EntryId)
    requires Alone(table, key, e)
    ensures CountsOf(table - {key}, entries - {e}) == CountsOf(table, entries) - {key}
  {
  }

  lemma AdmittedCounts(table: map<Key, EntryId>, entries: map<EntryId, Entry>, key: Key, e: EntryId, entry: Entry)
    requires Alone(table, key, e)
    requires if key in table then table[key] == e && e in entries && entry.users == entries[e].users + 1
             else entry.users == 1
    ensures CountsOf(table[key := e], entries[e := entry]) == Admitted(CountsOf(table, entries), key)
  {
    CountsUpdated(table, entries, key, e, entry);
  }

  lemma DismissedCounts(table: map<Key, EntryId>, entries: map<EntryId, Entry>, key: Key, e: EntryId)
    requires key in table && table[key] == e && e in entries && Alone(table, key, e)
    ensures key in CountsOf(table, entries)
    ensures Dismissed(CountsOf(table, entries), key) ==
            if entries[e].users == 1 then CountsOf(table - {key}, entries - {e})
            else CountsOf(table, entries[e := entries[e].(users := entries[e].users - 1)])
  {
    CountsDropped(table, entries, key, e);
    CountsUpdated(table, entries, key, e, entries[e].(users := entries[e].users - 1));
    assert table[key := e] == table;
  }

  lemma EnteredEffect(s: System, c: CallerId, key: Key, expected: Digest)
    requires key in s.table ==> s.table[key] in s.entries
    ensures var r := Entered(s, c, key, expected);
            var e := r.callers[c].entry;
            && e == (if key in s.table then s.table[key] else s.nextEntry) && e in r.entries
            && r.table == s.table[key := e] && r.entries == s.entries[e := r.entries[e]]
            && r.entries[e].users == (if key in s.table then s.entries[e].users + 1 else 1)
  {
  }

  /** A caller that enters is counted in, for its path alone. */
  lemma EnterAdmits(s: System, c: CallerId, key: Key, expected: Digest)
    requires Inv(s) && Enabled(s, Enter(c, key, expected))
    ensures var r := Entered(s, c, key, expected);
            CountsOf(r.table, r.entries) == Admitted(CountsOf(s.table, s.entries), key)
  {
    TableIsInjective(s, key);
    EnteredEffect(s, c, key, expected);
    hide Inv;
    hide Alone;
    hide CountsOf;
    hide Admitted;
    hide Entered;
    var r := Entered(s, c, key, expected);
    var e := r.callers[c].entry;
    AdmittedCounts(s.table, s.entries, key, e, r.entries[e]);
  }

  lemma GoneEffect(s: System, c: CallerId)
    requires In(s, c) && s.callers[c].key in s.table && s.table[s.callers[c].key] == s.callers[c].entry
    ensures var r, key, e := Gone(s, c), s.callers[c].key, s.callers[c].entry;
            if s.entries[e].users == 1 then r.table == s.table - {key} && r.entries == s.entries - {e}
            else r.table == s.table && r.entries == s.entries[e := s.entries[e].(users := s.entries[e].users - 1)]
  {
  }

  /** A caller that leaves is counted out, and the last takes the entry along. */
  lemma LeaveDismisses(s: System, c: CallerId)
    requires Inv(s) && Enabled(s, Leave(c))
    ensures var r, key := Gone(s, c), s.callers[c].key;
            && key in CountsOf(s.table, s.entries)
            && CountsOf(r.table, r.entries) == Dismissed(CountsOf(s.table, s.entries), key)
  {
    var key, e := s.callers[c].key, s.callers[c].entry;
    TableIsInjective(s, key);
    assert key in s.table && s.table[key] == e;
    GoneEffect(s, c);
    DismissedCounts(s.table, s.entries, key, e);
    hide Inv;
    hide Alone;
    hide Gone;
    hide CountsOf;
    hide Dismissed;
  }

  /** One lock entry, shared by reference between the table and its callers. */
  class LockEntry {
    var users: int

    constructor ()
      ensures users == 0
    {
      users := 0;
    }
  }

  /** The table itself: its counts move exactly as the machine's do when a caller enters or leaves. */
  class LockTable {
    var locks: map<Key, LockEntry>

    ghost function Counts(): (r: map<Key, int>)
      reads this, locks.Values
    {
      map key | key in locks :: locks[key].users
    }

    /** No entry serves two paths. */
    ghost predicate Unaliased()
      reads this
    {
      forall k, l :: k in locks && l in locks && k != l ==> locks[k] != locks[l]
    }

    constructor ()
      ensures Counts() == CountsOf(INITIAL.table, INITIAL.entries) && Unaliased()
    {
      locks := map[];
    }

    method GetOrCreate(key: Key) returns (entry: LockEntry)
      requires Unaliased()
      modifies this, if key in locks then {locks[key]} else {}
      ensures Unaliased() && locks == old(locks)[key := entry] && (key in old(locks) ==> entry == old(locks)[key])
      ensures key !in old(locks) ==> fresh(entry)
      ensures Counts() == Admitted(old(Counts()), key)
    {
      if key in locks {
        entry := locks[key];
      } else {
        entry := new LockEntry();
        locks := locks[key := entry];
      }
      entry.users := entry.users + 1;
    }

    /** The entry leaves the table with its last user, unless another entry has taken its place. */
    method Release(key: Key, entry: LockEntry)
      requires Unaliased()
      modifies this, entry
      ensures Unaliased() && entry.users == old(entry.users) - 1
      ensures key in old(locks) && old(locks)[key] == entry ==> Counts() == Dismissed(old(Counts()), key)
      ensures key !in old(locks) || old(locks)[key] != entry ==> locks == old(locks)
    {
      entry.users := entry.users - 1;
      if entry.users == 0 && key in locks && locks[key] == entry {
        locks := locks - {key};
      }
    }
  }
}
