/** Three passes of the node state loop converge from any running state; a fourth has nothing to do. */
module Convergence {
  import opened Options
  import opened NodeState

  /** A spec whose starts can only be refused because its port or its target is taken. */
  predicate StableSpec(d: Desired) {
    && !d.state.Unsupported?
    && (d.state.Running? ==> d.launch.Some? && !d.hostResolved)
  }

  /** The launch is for the spec's own port. */
  predicate OwnPort(d: Desired) {
    d.state.Running? && d.launch.Some? ==> d.launch.value.port == d.port
  }

  predicate SpecOk(d: Desired) {
    StableSpec(d) && OwnPort(d)
  }

  /** The start works and postdates the restart watermark. */
  predicate AttemptOk(d: Desired, attempt: Attempt) {
    attempt.Spawns? && (d.watermark.Some? ==> d.watermark.value <= attempt.now)
  }

  predicate SameTarget(d: Desired, e: Desired) {
    && d.launch.Some? && e.launch.Some?
    && d.launch.value.target == e.launch.value.target && d.launch.value.platform == e.launch.value.platform
  }

  /** A list with distinct ports and, among the running specs, distinct targets. */
  predicate StableList(desired: seq<Desired>) {
    && (forall i :: 0 <= i < |desired| ==> StableSpec(desired[i]))
    && (forall i, j :: 0 <= i < |desired| && 0 <= j < |desired| && i != j ==> desired[i].port != desired[j].port)
    && (forall i, j ::
          (0 <= i < |desired| && 0 <= j < |desired| && i != j
           && desired[i].state.Running? && desired[j].state.Running?) ==>
            !SameTarget(desired[i], desired[j]))
  }

  predicate OwnPorts(desired: seq<Desired>) {
    forall i :: 0 <= i < |desired| ==> OwnPort(desired[i])
  }

  predicate DesiredOk(desired: seq<Desired>) {
    StableList(desired) && OwnPorts(desired)
  }

  predicate AttemptsOk(desired: seq<Desired>, attempts: seq<Attempt>) {
    |attempts| == |desired| && forall i :: 0 <= i < |desired| ==> AttemptOk(desired[i], attempts[i])
  }

  predicate Mirrors(v: View) {
    v.running == Infos(v.nodes)
  }

  /** The port holds nothing it has to give up. */
  predicate Settled(nodes: Nodes, d: Desired)
    requires SpecOk(d)
  {
    d.port in nodes ==> d.state.Running? && !NeedsRestart(nodes[d.port].info, d)
  }

  predicate Clean(nodes: Nodes, desired: seq<Desired>)
    requires DesiredOk(desired)
  {
    && (forall port :: port in nodes ==> exists i :: 0 <= i < |desired| && desired[i].port == port)
    && (forall i :: 0 <= i < |desired| ==> Settled(nodes, desired[i]))
  }

  predicate SameAt(a: Nodes, b: Nodes, port: Port) {
    && (port in a <==> port in b)
    && (port in a && port in b ==> a[port] == b[port])
  }

  /** Exactly the desired nodes run, on their targets, restarted as asked and with the desired flags. */
  predicate Converged(nodes: Nodes, desired: seq<Desired>)
    requires StableList(desired)
  {
    && (forall port :: port in nodes ==>
          exists i :: 0 <= i < |desired| && desired[i].port == port && desired[i].state.Running?)
    && (forall i :: 0 <= i < |desired| && desired[i].state.Running? ==>
                      var d := desired[i];
                      && d.port in nodes
                      && Serves(nodes[d.port].info, d.launch.value.target, d.launch.value.platform)
                      && (d.watermark.Some? ==> d.watermark.value <= nodes[d.port].info.startedAt)
                      && nodes[d.port].flags == d.flags)
  }

  // The first pass leaves only nodes that may stay.

  lemma StepSettles(v: View, d: Desired, attempt: Attempt)
    requires Mirrors(v) && SpecOk(d) && AttemptOk(d, attempt)
    ensures var r := ConvergeSpec(v, d, attempt);
            Mirrors(r) && Settled(r.nodes, d) && forall q :: q != d.port ==> SameAt(v.nodes, r.nodes, q)
  {
    hide ServedElsewhere;
  }

  lemma {:induction false} SpecsSettle(v: View, desired: seq<Desired>, attempts: seq<Attempt>)
    requires Mirrors(v) && DesiredOk(desired) && AttemptsOk(desired, attempts)
    ensures var r := ConvergeAll(v, desired, attempts);
            Mirrors(r) && forall i :: 0 <= i < |desired| ==> Settled(r.nodes, desired[i])
  {
    if desired != [] {
      var last := |desired| - 1;
      SpecsSettle(v, desired[..last], attempts[..last]);
      StepSettles(ConvergeAll(v, desired[..last], attempts[..last]), desired[last], attempts[last]);
      hide ConvergeSpec;
      hide NeedsRestart;
    }
  }

  lemma FirstPassCleans(nodes: Nodes, desired: seq<Desired>, attempts: seq<Attempt>)
    requires DesiredOk(desired) && AttemptsOk(desired, attempts)
    ensures Clean(Pass(nodes, desired, attempts).0, desired)
  {
    var v := View(nodes, Infos(nodes), []);
    SpecsSettle(v, desired, attempts);
    hide ConvergeAll;
    hide NeedsRestart;
    var r := Pass(nodes, desired, attempts).0;
    forall port | port in r
      ensures exists i :: 0 <= i < |desired| && desired[i].port == port
    {
      assert port in DesiredPorts(desired);
      var d :| d in desired && d.port == port;
    }
  }

  // From a clean state every start goes through.

  lemma NothingBlocks(nodes: Nodes, desired: seq<Desired>, i: nat)
    requires DesiredOk(desired) && Clean(nodes, desired) && i < |desired| && desired[i].state.Running?
    ensures !ServedElsewhere(nodes, desired[i].port, desired[i].launch.value.target, desired[i].launch.value.platform)
  {
    forall q | q in nodes && q != desired[i].port
      ensures !Serves(nodes[q].info, desired[i].launch.value.target, desired[i].launch.value.platform)
    {
      var j :| 0 <= j < |desired| && desired[j].port == q;
      assert Settled(nodes, desired[j]);
      assert !SameTarget(desired[i], desired[j]);
    }
  }

  /** On a clean state a spec only ever adds its node or corrects its flags. */
  lemma CleanSpec(v: View, desired: seq<Desired>, i: nat, attempt: Attempt)
    requires Mirrors(v) && DesiredOk(desired) && Clean(v.nodes, desired) && i < |desired|
             && AttemptOk(desired[i], attempt)
    ensures var d, r := desired[i], ConvergeSpec(v, desired[i], attempt);
            && (d.state.Stopped? ==> r == v)
            && (d.state.Running? && d.port in v.nodes ==> r == ReconfigureSpec(v, d))
            && (d.state.Running? && d.port !in v.nodes ==>
                  r == View(v.nodes[d.port := Node(Info(d.launch.value.target, d.launch.value.platform, attempt.now),
                                                   d.launch.value.flags)],
                            r.running, v.calls + [Start(d.port)]))
  {
    var d := desired[i];
    assert Settled(v.nodes, d);
    if d.state.Running? { NothingBlocks(v.nodes, desired, i); }
    hide ServedElsewhere;
  }

  /** The flags of a port are right, if it was already up before. */
  predicate Tended(was: Nodes, nodes: Nodes, d: Desired) {
    d.state.Running? ==> d.port in nodes && (d.port in was ==> nodes[d.port].flags == d.flags)
  }

  lemma CleanStep(v: View, desired: seq<Desired>, i: nat, attempt: Attempt)
    requires Mirrors(v) && DesiredOk(desired) && Clean(v.nodes, desired) && i < |desired|
             && AttemptOk(desired[i], attempt)
    ensures var r := ConvergeSpec(v, desired[i], attempt);
            && Mirrors(r) && Clean(r.nodes, desired)
            && Tended(v.nodes, r.nodes, desired[i])
            && forall q :: q != desired[i].port ==> SameAt(v.nodes, r.nodes, q)
  {
    StepSettles(v, desired[i], attempt);
    CleanSpec(v, desired, i, attempt);
    var r := ConvergeSpec(v, desired[i], attempt);
    hide ConvergeSpec;
    forall j | 0 <= j < |desired| ensures Settled(r.nodes, desired[j]) {
      assert Settled(v.nodes, desired[j]);
      assert j != i ==> SameAt(v.nodes, r.nodes, desired[j].port);
    }
  }

  lemma {:induction false} CleanSpecs(v: View, desired: seq<Desired>, attempts: seq<Attempt>, n: nat)
    requires Mirrors(v) && DesiredOk(desired) && Clean(v.nodes, desired) && AttemptsOk(desired, attempts)
             && n <= |desired|
    ensures var r := ConvergeAll(v, desired[..n], attempts[..n]);
            && Mirrors(r) && Clean(r.nodes, desired)
            && (forall j :: 0 <= j < n ==> Tended(v.nodes, r.nodes, desired[j]))
            && (forall j :: n <= j < |desired| ==> SameAt(v.nodes, r.nodes, desired[j].port))
  {
    if n > 0 {
      CleanSpecs(v, desired, attempts, n - 1);
      assert desired[..n][..n - 1] == desired[..n - 1] && attempts[..n][..n - 1] == attempts[..n - 1];
      var b := ConvergeAll(v, desired[..n - 1], attempts[..n - 1]);
      CleanStep(b, desired, n - 1, attempts[n - 1]);
      var r := ConvergeAll(v, desired[..n], attempts[..n]);
      hide ConvergeSpec;
      hide ConvergeAll;
      hide Clean;
      assert forall j :: 0 <= j < |desired| && j != n - 1 ==> SameAt(b.nodes, r.nodes, desired[j].port);
      assert SameAt(v.nodes, b.nodes, desired[n - 1].port);
    }
  }

  lemma LaterPass(nodes: Nodes, desired: seq<Desired>, attempts: seq<Attempt>)
    requires DesiredOk(desired) && AttemptsOk(desired, attempts) && Clean(nodes, desired)
    ensures var r := Pass(nodes, desired, attempts).0;
            Clean(r, desired) && forall j :: 0 <= j < |desired| ==> Tended(nodes, r, desired[j])
  {
    var v := View(nodes, Infos(nodes), []);
    CleanSpecs(v, desired, attempts, |desired|);
    assert desired[..|desired|] == desired && attempts[..|desired|] == attempts;
    var r := ConvergeAll(v, desired, attempts);
    hide ConvergeAll;
    NoOrphans(r.nodes, desired);
    assert r.running.Keys == r.nodes.Keys;
    assert Pass(nodes, desired, attempts).0 == r.nodes;
  }

  lemma NoOrphans(nodes: Nodes, desired: seq<Desired>)
    requires DesiredOk(desired) && Clean(nodes, desired)
    ensures nodes.Keys - DesiredPorts(desired) == {}
  {
    forall port | port in nodes ensures port in DesiredPorts(desired) {
      var i :| 0 <= i < |desired| && desired[i].port == port;
      assert desired[i] in desired;
    }
  }

  lemma TendedTwiceConverges(was: Nodes, nodes: Nodes, desired: seq<Desired>)
    requires DesiredOk(desired) && Clean(nodes, desired)
    requires forall j :: 0 <= j < |desired| && desired[j].state.Running? ==> desired[j].port in was
    requires forall j :: 0 <= j < |desired| ==> Tended(was, nodes, desired[j])
    ensures Converged(nodes, desired)
  {
    forall port | port in nodes
      ensures exists i :: 0 <= i < |desired| && desired[i].port == port && desired[i].state.Running?
    {
      var i :| 0 <= i < |desired| && desired[i].port == port;
      assert Settled(nodes, desired[i]);
    }
    forall i | 0 <= i < |desired| && desired[i].state.Running?
      ensures desired[i].port in nodes && !NeedsRestart(nodes[desired[i].port].info, desired[i])
      ensures nodes[desired[i].port].flags == desired[i].flags
    {
      assert Settled(nodes, desired[i]) && Tended(was, nodes, desired[i]);
    }
  }

  /**
   From any running state whatever, three passes over a stable desired list end in exactly the
   desired nodes, targets and flags.
   */
  lemma ThreePassesConverge(nodes: Nodes, desired: seq<Desired>, a1: seq<Attempt>, a2: seq<Attempt>, a3: seq<Attempt>)
    requires DesiredOk(desired) && AttemptsOk(desired, a1) && AttemptsOk(desired, a2) && AttemptsOk(desired, a3)
    ensures Converged(Pass(Pass(Pass(nodes, desired, a1).0, desired, a2).0, desired, a3).0, desired)
  {
    hide Pass;
    var n1 := Pass(nodes, desired, a1).0;
    var n2 := Pass(n1, desired, a2).0;
    var n3 := Pass(n2, desired, a3).0;
    FirstPassCleans(nodes, desired, a1);
    LaterPass(n1, desired, a2);
    LaterPass(n2, desired, a3);
    assert forall j :: 0 <= j < |desired| ==> Tended(n1, n2, desired[j]);
    hide Clean;
    TendedTwiceConverges(n2, n3, desired);
  }

  lemma ConvergedIsClean(nodes: Nodes, desired: seq<Desired>)
    requires DesiredOk(desired) && Converged(nodes, desired)
    ensures Clean(nodes, desired)
  {
    forall i | 0 <= i < |desired| ensures Settled(nodes, desired[i]) {
      if desired[i].port in nodes {
        var j :| 0 <= j < |desired| && desired[j].port == desired[i].port && desired[j].state.Running?;
        assert i == j;
      }
    }
  }

  lemma {:induction false} NothingToDo(v: View, desired: seq<Desired>, attempts: seq<Attempt>, n: nat)
    requires DesiredOk(desired) && AttemptsOk(desired, attempts) && n <= |desired|
    requires Mirrors(v) && Clean(v.nodes, desired) && Converged(v.nodes, desired)
    ensures ConvergeAll(v, desired[..n], attempts[..n]) == v
  {
    if n > 0 {
      NothingToDo(v, desired, attempts, n - 1);
      assert desired[..n][..n - 1] == desired[..n - 1] && attempts[..n][..n - 1] == attempts[..n - 1];
      CleanSpec(v, desired, n - 1, attempts[n - 1]);
      hide ConvergeSpec;
      hide Clean;
    }
  }

  /** A converged state is a fixed point: the next pass starts, stops and reconfigures nothing. */
  lemma ConvergedIsQuiet(nodes: Nodes, desired: seq<Desired>, attempts: seq<Attempt>)
    requires DesiredOk(desired) && AttemptsOk(desired, attempts) && Converged(nodes, desired)
    ensures Pass(nodes, desired, attempts) == (nodes, [])
  {
    var v := View(nodes, Infos(nodes), []);
    ConvergedIsClean(nodes, desired);
    NothingToDo(v, desired, attempts, |desired|);
    assert desired[..|desired|] == desired && attempts[..|desired|] == attempts;
    assert ConvergeAll(v, desired, attempts) == v;
    NoOrphans(nodes, desired);
    hide ConvergeAll;
    var orphans := v.running.Keys - DesiredPorts(desired);
    assert orphans == {};
    assert Ascending(orphans) == [] && StopsOf([]) == [];
    assert nodes - orphans == nodes;
    assert v.calls + StopsOf(Ascending(orphans)) == [];
    assert Pass(nodes, desired, attempts) == (v.nodes - orphans, v.calls + StopsOf(Ascending(orphans)));
  }

  lemma SinglePass(nodes: Nodes, d: Desired, attempt: Attempt)
    ensures var v := ConvergeSpec(View(nodes, Infos(nodes), []), d, attempt);
            Pass(nodes, [d], [attempt]).0 == v.nodes - (v.running.Keys - {d.port})
  {
    assert [d][..0] == [] && [attempt][..0] == [];
    var v := View(nodes, Infos(nodes), []);
    assert ConvergeAll(v, [], []) == v;
    assert ConvergeAll(v, [d], [attempt]) == ConvergeSpec(v, d, attempt);
    assert DesiredPorts([d]) == {d.port} by { assert d in [d]; }
  }

  const PLAIN := Flags(true, false, None)
  const DRAINING := Flags(false, true, None)
  const WANTED := Desired(4723, Running, DRAINING, None, Some(Launch(4723, "serial", "android", PLAIN)), false)
  const ATTEMPT := Spawns(1.0, "serial")

  /** The orphan holds the target, so the start is refused; then the orphan is swept. */
  lemma OrphanCostsAPass()
    ensures Pass(map[4724 := Node(Info("serial", "android", 0.0), PLAIN)], [WANTED], [ATTEMPT]).0 == map[]
  {
    var nodes: Nodes := map[4724 := Node(Info("serial", "android", 0.0), PLAIN)];
    SinglePass(nodes, WANTED, ATTEMPT);
    assert Serves(nodes[4724].info, "serial", "android");
  }

  lemma LaunchFlagsCostAPass()
    ensures Pass(map[], [WANTED], [ATTEMPT]).0 == map[4723 := Node(Info("serial", "android", 1.0), PLAIN)]
  {
    SinglePass(map[], WANTED, ATTEMPT);
  }

  /** Two passes are not always enough: an orphan on the target costs one, the launch's flags another. */
  lemma TwoPassesMayNotSuffice()
    ensures exists nodes: Nodes, desired: seq<Desired>, attempts: seq<Attempt> ::
              && DesiredOk(desired) && AttemptsOk(desired, attempts)
              && !Converged(Pass(Pass(nodes, desired, attempts).0, desired, attempts).0, desired)
  {
    OrphanCostsAPass();
    LaunchFlagsCostAPass();
    hide Pass;
    var after: Nodes := map[4723 := Node(Info("serial", "android", 1.0), PLAIN)];
    assert [WANTED][0].state.Running? && after[4723].flags != WANTED.flags;
    assert !Converged(after, [WANTED]);
  }

  // The launch must name the spec's own port.

  /** Every node was started by some running spec of the list, on the port its launch names. */
  ghost predicate Made(nodes: Nodes, desired: seq<Desired>) {
    forall port :: port in nodes ==> exists i :: 0 <= i < |desired| && MadeBy(nodes[port].info, port, desired[i])
  }

  predicate MadeBy(info: Info, port: Port, d: Desired) {
    && d.state.Running? && d.launch.Some? && d.launch.value.port == port
    && Serves(info, d.launch.value.target, d.launch.value.platform)
  }

  lemma MadeSpec(v: View, desired: seq<Desired>, i: nat, attempt: Attempt)
    requires StableList(desired) && i < |desired| && Made(v.nodes, desired)
    ensures Made(ConvergeSpec(v, desired[i], attempt).nodes, desired)
  {
    hide ServedElsewhere;
    var d, r := desired[i], ConvergeSpec(v, desired[i], attempt);
    assert StableSpec(d);
    forall port | port in r.nodes
      ensures exists j :: 0 <= j < |desired| && MadeBy(r.nodes[port].info, port, desired[j])
    {
      if port in v.nodes && r.nodes[port].info == v.nodes[port].info {
        var j :| 0 <= j < |desired| && MadeBy(v.nodes[port].info, port, desired[j]);
      } else {
        assert MadeBy(r.nodes[port].info, port, d);
      }
    }
  }

  lemma {:induction false} MadeSpecs(v: View, desired: seq<Desired>, attempts: seq<Attempt>, n: nat)
    requires StableList(desired) && |attempts| == |desired| && n <= |desired| && Made(v.nodes, desired)
    ensures Made(ConvergeAll(v, desired[..n], attempts[..n]).nodes, desired)
  {
    if n > 0 {
      MadeSpecs(v, desired, attempts, n - 1);
      assert desired[..n][..n - 1] == desired[..n - 1] && attempts[..n][..n - 1] == attempts[..n - 1];
      MadeSpec(ConvergeAll(v, desired[..n - 1], attempts[..n - 1]), desired, n - 1, attempts[n - 1]);
      hide Made;
      hide ConvergeSpec;
    }
  }

  lemma MadePass(nodes: Nodes, desired: seq<Desired>, attempts: seq<Attempt>)
    requires StableList(desired) && |attempts| == |desired| && Made(nodes, desired)
    ensures Made(Pass(nodes, desired, attempts).0, desired)
  {
    var v := View(nodes, Infos(nodes), []);
    MadeSpecs(v, desired, attempts, |desired|);
    assert desired[..|desired|] == desired && attempts[..|desired|] == attempts;
    hide ConvergeAll;
    hide MadeBy;
  }

  /** A converged state whose nodes the list itself made shows that every launch names its own port. */
  lemma MadeAndConverged(nodes: Nodes, desired: seq<Desired>)
    requires StableList(desired) && Made(nodes, desired) && Converged(nodes, desired)
    ensures OwnPorts(desired)
  {
    forall i | 0 <= i < |desired| ensures OwnPort(desired[i]) {
      var d := desired[i];
      if d.state.Running? {
        assert StableSpec(d);
        var j :| 0 <= j < |desired| && MadeBy(nodes[d.port].info, d.port, desired[j]);
        assert SameTarget(d, desired[j]);
      }
    }
  }

  function TimelyAttempts(desired: seq<Desired>): (attempts: seq<Attempt>)
    ensures AttemptsOk(desired, attempts)
  {
    seq(|desired|, i requires 0 <= i < |desired| =>
      Spawns(if desired[i].watermark.Some? then desired[i].watermark.value else 0.0, ""))
  }

  ghost predicate AlwaysConverges(desired: seq<Desired>)
    requires StableList(desired)
  {
    forall nodes, a1, a2, a3 :: AttemptsOk(desired, a1) && AttemptsOk(desired, a2) && AttemptsOk(desired, a3) ==>
                                  Converged(Pass(Pass(Pass(nodes, desired, a1).0, desired, a2).0, desired, a3).0,
                                            desired)
  }

  /**
   For a stable list, three passes converge from every running state if and only if every launch
   names its own spec's port; a launch for another port is started there and swept as an orphan.
   */
  lemma ConvergesIffOwnPorts(desired: seq<Desired>)
    requires StableList(desired)
    ensures AlwaysConverges(desired) <==> OwnPorts(desired)
  {
    if OwnPorts(desired) {
      forall nodes, a1, a2, a3 | AttemptsOk(desired, a1) && AttemptsOk(desired, a2) && AttemptsOk(desired, a3)
        ensures Converged(Pass(Pass(Pass(nodes, desired, a1).0, desired, a2).0, desired, a3).0, desired)
      {
        ThreePassesConverge(nodes, desired, a1, a2, a3);
      }
    }
    if AlwaysConverges(desired) {
      var a := TimelyAttempts(desired);
      var n1 := Pass(map[], desired, a).0;
      var n2 := Pass(n1, desired, a).0;
      var n3 := Pass(n2, desired, a).0;
      MadePass(map[], desired, a);
      MadePass(n1, desired, a);
      MadePass(n2, desired, a);
      assert Converged(n3, desired);
      MadeAndConverged(n3, desired);
    }
  }
}
