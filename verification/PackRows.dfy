/**
 What the status rows say and when the start gate agrees, along every run of the pack state loop
 and whatever the desired lists hold: ids repeated, releases whose content changes.
 */
module PackRows {
  import opened Options
  import opened Packs
  import opened PackRaces

  /** The rows written so far are those of the packs visited so far. */
  predicate RowsOk(entries: seq<Entry>, pass: Pass) {
    pass.Visiting? ==>
      && |entries| == pass.next <= |Visited(pass.packs)|
      && forall i :: 0 <= i < |entries| ==>
                       entries[i].id == Visited(pass.packs)[i].id
                           && entries[i].release == Visited(pass.packs)[i].release
  }

  predicate StampedOk(pass: Pass, r: Runtimes) {
    pass.Visiting? && pass.installed ==>
      && pass.next < |Visited(pass.packs)|
      && StampOf(r, Visited(pass.packs)[pass.next].id) == Some(Visited(pass.packs)[pass.next].release)
  }

  /** The gate has what it asks for: the worker it needs, or a manifest that demands none. */
  predicate Served(p: DesiredPack, a: Adapters) {
    if NeedsWorker(p, a) then KeyOf(p) in a.byKey else DeclaredHooks(p) == []
  }

  /** A worker answers for a release that, as now listed, ships none and yet declares hooks. */
  predicate Leftover(p: DesiredPack, a: Adapters) {
    KeyOf(p) in a.byKey && !NeedsWorker(p, a) && DeclaredHooks(p) != []
  }

  predicate Judged(p: DesiredPack, reg: Registries) {
    StampOf(reg.runtimes, p.id) == Some(p.release) && (Served(p, reg.adapters) || Leftover(p, reg.adapters))
  }

  /** The row speaks of the pack last listed under its id. */
  predicate RowJudged(e: Entry, packs: seq<DesiredPack>, reg: Registries) {
    e.id in ById(packs) && ById(packs)[e.id].release == e.release && Judged(ById(packs)[e.id], reg)
  }

  predicate InstalledOk(entries: seq<Entry>, latest: Option<seq<DesiredPack>>, reg: Registries) {
    forall i :: 0 <= i < |entries| && entries[i].status == Installed ==>
          latest.Some? && RowJudged(entries[i], latest.value, reg)
  }

  predicate RowsInv(s: System) {
    && Inv(s)
    && RowsOk(s.entries, s.pass)
    && StampedOk(s.pass, s.reg.runtimes)
    && InstalledOk(s.entries, s.latest, s.reg)
  }

  predicate HasRow(entries: seq<Entry>, id: PackId) {
    exists i :: 0 <= i < |entries| && entries[i].id == id
  }

  /** A change of the registries that keeps the verdict on every pack already reported. */
  lemma RowsSurvive(entries: seq<Entry>, latest: Option<seq<DesiredPack>>, reg: Registries, after: Registries)
    requires InstalledOk(entries, latest, reg)
    requires latest.Some? ==>
               forall p :: (p in latest.value && Judged(p, reg) && HasRow(entries, p.id)) ==> Judged(p, after)
    ensures InstalledOk(entries, latest, after)
  {
    hide Judged;
    forall i | 0 <= i < |entries| && entries[i].status == Installed
      ensures latest.Some? && RowJudged(entries[i], latest.value, after)
    {
      assert RowJudged(entries[i], latest.value, reg);
      assert ById(latest.value)[entries[i].id].id == entries[i].id;
    }
  }

  /** The pack being visited has no row yet. */
  lemma HeadIsNew(s: System, i: nat)
    requires RowsOk(s.entries, s.pass) && s.pass.Visiting? && s.pass.next < |Visited(s.pass.packs)| && i < |s.entries|
    ensures s.entries[i].id != Head(s).id
  {
    var ids := Ids(s.pass.packs);
    assert s.entries[i].id == ids[i] && Head(s).id == ids[s.pass.next];
  }

  lemma NextRowOk(entries: seq<Entry>, pass: Pass, e: Entry)
    requires RowsOk(entries, pass) && pass.Visiting? && pass.next < |Visited(pass.packs)|
    requires e.id == Visited(pass.packs)[pass.next].id && e.release == Visited(pass.packs)[pass.next].release
    ensures RowsOk(entries + [e], Visiting(pass.packs, pass.next + 1, false))
  {
    hide Visited;
  }

  lemma InstallRows(s: System, env: Env)
    requires RowsOk(s.entries, s.pass) && InstalledOk(s.entries, s.latest, s.reg) && Enabled(s, Install(env))
    ensures InstalledOk(s.entries, s.latest, Apply(s, Install(env)).reg)
  {
    hide Visited;
    var r := Apply(s, Install(env));
    if s.latest.Some? {
      forall p | p in s.latest.value && Judged(p, s.reg) && HasRow(s.entries, p.id)
        ensures Judged(p, r.reg)
      {
        hide Served;
        hide Leftover;
        var i :| 0 <= i < |s.entries| && s.entries[i].id == p.id;
        HeadIsNew(s, i);
      }
    }
    hide Judged;
    RowsSurvive(s.entries, s.latest, s.reg, r.reg);
  }

  lemma InstallKeepsRows(s: System, env: Env)
    requires RowsInv(s) && Enabled(s, Install(env))
    ensures RowsInv(Apply(s, Install(env)))
  {
    StepKeeps(s, Install(env));
    InstallRows(s, env);
    hide Inv;
    hide InstalledOk;
    hide Visited;
  }

  /** A row reported installed is judged at the moment it is written. */
  lemma ReportedIsJudged(p: DesiredPack, reg: Registries)
    requires StampOf(reg.runtimes, p.id) == Some(p.release) && StatusOf(p, reg.adapters) == Installed
    ensures Judged(p, reg)
  {
    InstalledClearsGateIff(p, reg);
  }

  /** Loading one pack leaves the verdict on every other pack as it was. */
  lemma LoadIsLocal(p: DesiredPack, q: DesiredPack, reg: Registries, load: Load)
    requires p.id != q.id && Judged(q, reg)
    ensures Judged(q, reg.(adapters := LoadAdapter(p, reg.adapters, load)))
  {
  }

  lemma HeadIsLast(s: System)
    requires Inv(s) && s.pass.Visiting? && s.pass.next < |Visited(s.pass.packs)|
    ensures s.latest.Some? && Head(s).id in ById(s.latest.value) && ById(s.latest.value)[Head(s).id] == Head(s)
  {
    assert LatestOk(s.latest, s.pass);
    VisitedIsLast(s.pass.packs, s.pass.next);
  }

  lemma ReportSpares(s: System, load: Load, q: DesiredPack, i: nat)
    requires RowsOk(s.entries, s.pass) && AtPack(s, true) && Judged(q, s.reg) && i < |s.entries|
             && s.entries[i].id == q.id
    ensures Judged(q, Reported(s, load).reg)
  {
    HeadIsNew(s, i);
    LoadIsLocal(Head(s), q, s.reg, load);
    hide Visited;
    hide Judged;
    hide LoadAdapter;
    hide StatusOf;
  }

  lemma ReportRows(s: System, load: Load)
    requires RowsInv(s) && AtPack(s, true)
    ensures InstalledOk(Reported(s, load).entries, s.latest, Reported(s, load).reg)
  {
    hide Judged;
    var p := Head(s);
    var r := Reported(s, load);
    HeadIsLast(s);
    hide Inv;
    hide Visited;
    hide ById;
    forall q | q in s.latest.value && Judged(q, s.reg) && HasRow(s.entries, q.id)
      ensures Judged(q, r.reg)
    {
      var i :| 0 <= i < |s.entries| && s.entries[i].id == q.id;
      ReportSpares(s, load, q, i);
    }
    RowsSurvive(s.entries, s.latest, s.reg, r.reg);
    if StatusOf(p, r.reg.adapters) == Installed {
      ReportedIsJudged(p, r.reg);
      assert RowJudged(r.entries[|s.entries|], s.latest.value, r.reg);
    }
    hide StatusOf;
    hide LoadAdapter;
    hide RowJudged;
  }

  lemma ReportKeepsRows(s: System, load: Load)
    requires RowsInv(s) && AtPack(s, true)
    ensures RowsInv(Reported(s, load))
  {
    ReportKeeps(s, load);
    ReportRows(s, load);
    var r := Reported(s, load);
    assert r.entries == s.entries + [r.entries[|s.entries|]];
    NextRowOk(s.entries, s.pass, r.entries[|s.entries|]);
    hide Inv;
    hide Visited;
    hide RowsOk;
    hide InstalledOk;
  }

  lemma SkipKeepsRows(s: System, reason: Reason)
    requires RowsInv(s) && Enabled(s, Skip(reason))
    ensures RowsInv(Skipped(s, reason))
  {
    StepKeeps(s, Skip(reason));
    SkipRows(s, reason);
    var e := Entry(Head(s).id, Head(s).release, None, Blocked(reason));
    NextRowOk(s.entries, s.pass, e);
    assert Skipped(s, reason).entries == s.entries + [e];
    hide Inv;
    hide Visited;
    hide RowsOk;
    hide InstalledOk;
  }

  lemma SkipRows(s: System, reason: Reason)
    requires AtPack(s, false) && InstalledOk(s.entries, s.latest, s.reg)
    ensures InstalledOk(Skipped(s, reason).entries, s.latest, s.reg)
  {
    hide RowJudged;
    hide Visited;
  }

  lemma BeginReapKeepsRows(s: System)
    requires RowsInv(s) && Enabled(s, BeginReap)
    ensures RowsInv(Apply(s, BeginReap))
  {
    StepKeeps(s, BeginReap);
    assert s.latest == Some(s.pass.packs);
    hide Inv;
    hide Visited;
    RowsSurvive(s.entries, s.latest, s.reg, Apply(s, BeginReap).reg);
  }

  /** The reap keeps every worker and mark of a listed pack that ships platforms. */
  lemma ReapKeepsRows(s: System, key: Key)
    requires RowsInv(s) && Enabled(s, ReapOne(key))
    ensures RowsInv(Reaped(s, key))
  {
    ReapKeeps(s, key);
    assert s.latest == Some(s.pass.packs);
    hide Inv;
    forall p | p in s.latest.value && Judged(p, s.reg)
      ensures Judged(p, Reaped(s, key).reg)
    {
      assert HasAdapterPlatform(p) ==> KeyOf(p) in DesiredKeys(s.pass.packs);
    }
    RowsSurvive(s.entries, s.latest, s.reg, Reaped(s, key).reg);
  }

  lemma EndKeepsRows(s: System)
    requires RowsInv(s) && Enabled(s, EndPass)
    ensures RowsInv(Apply(s, EndPass))
  {
    StepKeeps(s, EndPass);
    assert s.latest == Some(s.pass.packs);
    hide Inv;
    forall p | p in s.latest.value && Judged(p, s.reg)
      ensures Judged(p, Apply(s, EndPass).reg)
    {
      assert HasAdapterPlatform(p) ==> KeyOf(p) in DesiredKeys(s.pass.packs);
    }
    RowsSurvive(s.entries, s.latest, s.reg, Apply(s, EndPass).reg);
  }

  lemma TurnKeepsRows(s: System, key: Key, alive: bool)
    requires RowsInv(s) && Enabled(s, WorkerTurns(key, alive))
    ensures RowsInv(Apply(s, WorkerTurns(key, alive)))
  {
    StepKeeps(s, WorkerTurns(key, alive));
    hide Inv;
    hide Visited;
    RowsSurvive(s.entries, s.latest, s.reg, Apply(s, WorkerTurns(key, alive)).reg);
  }

  /** Starts, unpins and an aborted pass touch neither rows nor registries. */
  lemma StartsTouchNothing(s: System, a: Action)
    requires Enabled(s, a) && (a.Resolve? || a.Commit? || a.GiveUp? || a.Unpin? || a.Abort?)
    ensures var r := Apply(s, a);
            r.reg == s.reg && r.latest == s.latest && r.entries == s.entries && (r.pass == s.pass || r.pass.Idle?)
  {
    hide ResolveWorker;
    hide Visited;
    hide StampOf;
  }

  lemma StartsKeepRows(s: System, a: Action)
    requires RowsInv(s) && Enabled(s, a) && (a.Resolve? || a.Commit? || a.GiveUp? || a.Unpin? || a.Abort?)
    ensures RowsInv(Apply(s, a))
  {
    StepKeeps(s, a);
    StartsTouchNothing(s, a);
    hide Apply;
    hide Enabled;
    hide Inv;
    hide InstalledOk;
    hide Visited;
  }

  lemma FetchKeepsRows(s: System, packs: seq<DesiredPack>)
    requires RowsInv(s) && Enabled(s, Fetch(packs))
    ensures RowsInv(Apply(s, Fetch(packs)))
  {
    StepKeeps(s, Fetch(packs));
    hide Inv;
  }

  lemma RestartKeepsRows(s: System)
    requires RowsInv(s)
    ensures RowsInv(Apply(s, LoopRestarts))
  {
    StepKeeps(s, LoopRestarts);
    hide Inv;
  }

  lemma StepKeepsRows(s: System, a: Action)
    requires RowsInv(s) && Enabled(s, a)
    ensures RowsInv(Apply(s, a))
  {
    hide RowsInv;
    match a
    case Fetch(packs) => FetchKeepsRows(s, packs);
    case Skip(reason) => SkipKeepsRows(s, reason);
    case Install(env) => InstallKeepsRows(s, env);
    case Report(load) => ReportKeepsRows(s, load);
    case BeginReap => BeginReapKeepsRows(s);
    case ReapOne(key) => ReapKeepsRows(s, key);
    case EndPass => EndKeepsRows(s);
    case WorkerTurns(key, alive) => TurnKeepsRows(s, key, alive);
    case LoopRestarts => RestartKeepsRows(s);
    case _ => StartsKeepRows(s, a);
  }

  lemma {:induction false} RunKeepsRows(s: System, actions: seq<Action>, r: System)
    requires RowsInv(s) && IsRun(s, actions, r)
    ensures RowsInv(r)
    decreases |actions|
  {
    if actions != [] {
      StepKeepsRows(s, actions[0]);
      hide RowsInv;
      hide Apply;
      hide Enabled;
      RunKeepsRows(Apply(s, actions[0]), actions[1..], r);
    }
  }

  lemma ReachableRows(s: System)
    requires Reachable(s)
    ensures RowsInv(s)
  {
    var actions :| IsRun(INITIAL, actions, s);
    assert RowsInv(INITIAL);
    hide RowsInv;
    RunKeepsRows(INITIAL, actions, s);
  }

  /**
   Exactly when the start gate clears a pack for the release its row reports installed: the pack
   first listed under that id has that release and the gate has what it asks for. When that is also
   the pack the row speaks of, only a leftover worker stands between the two.
   */
  lemma InstalledRowClearsIff(s: System, e: Entry)
    requires Reachable(s) && e in s.entries && e.status == Installed
    ensures s.latest.Some? && FirstWithId(s.latest.value, e.id).Some? && e.id in ById(s.latest.value)
    ensures var first := FirstWithId(s.latest.value, e.id).value;
            && (ResolveWorker(s.latest, s.reg, e.id, Some(e.release)).Cleared? <==>
                first.release == e.release && Served(first, s.reg.adapters))
            && (first == ById(s.latest.value)[e.id] ==>
                  (ResolveWorker(s.latest, s.reg, e.id, Some(e.release)).Cleared? <==>
                     !Leftover(first, s.reg.adapters)))
  {
    ReachableRows(s);
    assert RowJudged(e, s.latest.value, s.reg);
    var q := ById(s.latest.value)[e.id];
    assert q in s.latest.value && q.id == e.id;
    hide Inv;
    hide ById;
  }

  /** When the visits are over every desired id has exactly one row, for the release last listed under it. */
  lemma EveryPackReportedOnce(s: System, p: DesiredPack)
    requires Reachable(s) && Enabled(s, BeginReap) && p in s.pass.packs
    ensures ReportedOnce(s.entries, s.pass.packs, p)
  {
    ReachableRows(s);
    hide Inv;
    hide InstalledOk;
    hide StampedOk;
    hide Visited;
    hide ReportedOnce;
    RowsReportOnce(s.entries, s.pass.packs, p);
  }
}
