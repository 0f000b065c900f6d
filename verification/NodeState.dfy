/**
 The node state loop (agent/agent_app/appium/node_state.py): one pass drives the running Appium
 nodes towards the desired list through the manager's start, stop and reconfigure calls.
 */
module NodeState {
  import opened Options

  type Port = nat
  type Time = real

  datatype Flags = Flags(acceptingNewSessions: bool, stopPending: bool, gridRunId: Option<string>)

  datatype Info = Info(target: string, platform: string, startedAt: Time)

  /** A running node: the manager's process info and the flags of its launch spec. */
  datatype Node = Node(info: Info, flags: Flags)

  datatype Launch = Launch(port: Port, target: string, platform: string, flags: Flags)

  datatype DesiredState = Running | Stopped | Unsupported

  datatype Desired = Desired(
    port: Port,
    state: DesiredState,
    flags: Flags,
    watermark: Option<Time>,
    launch: Option<Launch>,
    hostResolved: bool)

  datatype Call = Stop(port: Port) | Start(port: Port) | Reconfigure(port: Port)

  /** How a start attempt ends when neither its port nor its target is taken. */
  datatype Attempt = Spawns(now: Time, resolvedTarget: string) | Fails

  type Nodes = map<Port, Node>

  /** The manager's nodes and the loop's own table of running ports, taken when the pass began. */
  datatype View = View(nodes: Nodes, running: map<Port, Info>, calls: seq<Call>)

  function Infos(nodes: Nodes): (r: map<Port, Info>) {
    map port | port in nodes :: nodes[port].info
  }

  predicate Serves(i: Info, target: string, platform: string) {
    i.target == target && i.platform == platform
  }

  predicate ServedElsewhere(nodes: Nodes, port: Port, target: string, platform: string) {
    exists q :: q in nodes && q != port && Serves(nodes[q].info, target, platform)
  }

  /** The target a start serves: the resolved one for a host-resolved device, else the launch's own. */
  function TargetOf(d: Desired, attempt: Attempt): (r: string)
    requires d.launch.Some?
  {
    if d.hostResolved && attempt.Spawns? then attempt.resolvedTarget else d.launch.value.target
  }

  /** The node a start leaves on the launch's port, unless the port or the target is taken. */
  function Started(nodes: Nodes, d: Desired, attempt: Attempt): (r: Option<Node>)
    requires d.launch.Some?
  {
    var launch := d.launch.value;
    var target := TargetOf(d, attempt);
    if attempt.Fails? || launch.port in nodes || ServedElsewhere(nodes, launch.port, target, launch.platform) then None
    else Some(Node(Info(target, launch.platform, attempt.now), launch.flags))
  }

  function StartSpec(v: View, d: Desired, attempt: Attempt): (r: View)
    requires d.launch.Some?
  {
    match Started(v.nodes, d, attempt)
    case None => v.(calls := v.calls + [Start(d.port)])
    case Some(node) =>
      View(v.nodes[d.launch.value.port := node], v.running[d.port := node.info], v.calls + [Start(d.port)])
  }

  function StopSpec(v: View, port: Port): (r: View) {
    View(v.nodes - {port}, v.running - {port}, v.calls + [Stop(port)])
  }

  predicate NeedsRestart(i: Info, d: Desired)
    requires d.launch.Some?
  {
    || (d.watermark.Some? && i.startedAt < d.watermark.value)
    || (!Serves(i, d.launch.value.target, d.launch.value.platform) && !d.hostResolved)
  }

  /** A port the manager no longer knows refuses the reconfigure; the loop logs that and goes on. */
  function ReconfigureSpec(v: View, d: Desired): (r: View) {
    if d.port in v.nodes && v.nodes[d.port].flags == d.flags then v
    else
      var nodes := if d.port in v.nodes then v.nodes[d.port := v.nodes[d.port].(flags := d.flags)] else v.nodes;
      v.(nodes := nodes, calls := v.calls + [Reconfigure(d.port)])
  }

  function ConvergeSpec(v: View, d: Desired, attempt: Attempt): (r: View) {
    if d.state.Stopped? then
      if d.port in v.running then StopSpec(v, d.port) else v
    else if d.state.Unsupported? || d.launch.None? then v
    else if d.port !in v.running then StartSpec(v, d, attempt)
    else if NeedsRestart(v.running[d.port], d) then StartSpec(StopSpec(v, d.port), d, attempt)
    else ReconfigureSpec(v, d)
  }

  function ConvergeAll(v: View, desired: seq<Desired>, attempts: seq<Attempt>): (r: View)
    requires |attempts| == |desired|
  {
    if desired == [] then v
    else
      var last := |desired| - 1;
      ConvergeSpec(ConvergeAll(v, desired[..last], attempts[..last]), desired[last], attempts[last])
  }

  function DesiredPorts(desired: seq<Desired>): (r: set<Port>) {
    set d | d in desired :: d.port
  }

  lemma {:induction false} LeastExists(s: set<Port>)
    requires s != {}
    ensures exists m: Port :: IsLeast(m, s)
  {
    var m :| m in s;
    if s == {m} {
      assert IsLeast(m, s);
    } else {
      LeastExists(s - {m});
      var k: Port :| IsLeast(k, s - {m});
      assert forall x :: x in s ==> x == m || x in s - {m};
      assert IsLeast(if m < k then m else k, s);
    }
  }

  predicate IsLeast(m: Port, s: set<Port>) {
    m in s && forall x :: x in s ==> m <= x
  }

  function Ascending(s: set<Port>): (r: seq<Port>)
    ensures forall p :: p in r <==> p in s
  {
    if s == {} then []
    else
      LeastExists(s);
      var m :| IsLeast(m, s);
      [m] + Ascending(s - {m})
  }

  function StopsOf(ports: seq<Port>): (r: seq<Call>) {
    seq(|ports|, i requires 0 <= i < |ports| => Stop(ports[i]))
  }

  /** One pass: every spec in order, then the orphans in ascending order of port. */
  function Pass(nodes: Nodes, desired: seq<Desired>, attempts: seq<Attempt>): (r: (Nodes, seq<Call>))
    requires |attempts| == |desired|
  {
    var v := ConvergeAll(View(nodes, Infos(nodes), []), desired, attempts);
    var orphans := v.running.Keys - DesiredPorts(desired);
    (v.nodes - orphans, v.calls + StopsOf(Ascending(orphans)))
  }

  /** The manager as the loop drives it; calls records what the loop asked for. */
  class Manager {
    var nodes: Nodes
    var calls: seq<Call>

    constructor (running: Nodes)
      ensures nodes == running && calls == []
    {
      nodes, calls := running, [];
    }

    method StopNode(port: Port)
      modifies this
      ensures nodes == old(nodes) - {port} && calls == old(calls) + [Stop(port)]
    {
      calls := calls + [Stop(port)];
      nodes := nodes - {port};
    }

    method StartNode(d: Desired, attempt: Attempt) returns (started: Option<Info>)
      requires d.launch.Some?
      modifies this
      ensures calls == old(calls) + [Start(d.port)]
      ensures match Started(old(nodes), d, attempt)
              case None => nodes == old(nodes) && started == None
              case Some(node) => nodes == old(nodes)[d.launch.value.port := node] && started == Some(node.info)
    {
      calls := calls + [Start(d.port)];
      var launch := d.launch.value;
      if attempt.Fails? || launch.port in nodes {
        return None;
      }
      var duplicate := FindTarget(launch.port, TargetOf(d, attempt), launch.platform);
      if duplicate {
        return None;
      }
      var info := Info(TargetOf(d, attempt), launch.platform, attempt.now);
      nodes := nodes[launch.port := Node(info, launch.flags)];
      return Some(info);
    }

    method FindTarget(port: Port, target: string, platform: string) returns (found: bool)
      ensures found == ServedElsewhere(nodes, port, target, platform)
    {
      var left := nodes.Keys;
      while left != {}
        invariant left <= nodes.Keys
        invariant forall q :: q in nodes && q !in left && q != port ==> !Serves(nodes[q].info, target, platform)
        decreases left
      {
        var q :| q in left;
        left := left - {q};
        if q != port && Serves(nodes[q].info, target, platform) {
          return true;
        }
      }
      found := false;
    }

    method SetFlags(port: Port, flags: Flags)
      modifies this
      ensures nodes == if port in old(nodes) then old(nodes)[port := old(nodes)[port].(flags := flags)] else old(nodes)
      ensures calls == old(calls) + [Reconfigure(port)]
    {
      calls := calls + [Reconfigure(port)];
      if port in nodes {
        nodes := nodes[port := nodes[port].(flags := flags)];
      }
    }
  }

  class NodeStateLoop {
    const manager: Manager

    constructor (m: Manager)
      ensures manager == m
    {
      manager := m;
    }

    method Converge(d: Desired, attempt: Attempt, before: map<Port, Info>) returns (running: map<Port, Info>)
      modifies manager
      ensures View(manager.nodes, running, manager.calls) ==
              ConvergeSpec(View(old(manager.nodes), before, old(manager.calls)), d, attempt)
    {
      running := before;
      if d.state.Stopped? {
        if d.port in running {
          manager.StopNode(d.port);
          running := running - {d.port};
        }
        return;
      }
      if d.state.Unsupported? || d.launch.None? {
        return;
      }
      var local := if d.port in running then Some(running[d.port]) else None;
      if local.Some? && NeedsRestart(local.value, d) {
        manager.StopNode(d.port);
        running := running - {d.port};
        local := None;
      }
      if local.None? {
        var started := manager.StartNode(d, attempt);
        if started.Some? {
          running := running[d.port := started.value];
        }
      } else if d.port !in manager.nodes || manager.nodes[d.port].flags != d.flags {
        manager.SetFlags(d.port, d.flags);
      }
    }

    method RunOnce(desired: seq<Desired>, attempts: seq<Attempt>)
      requires |attempts| == |desired|
      modifies manager
      ensures manager.nodes == Pass(old(manager.nodes), desired, attempts).0
      ensures manager.calls == old(manager.calls) + Pass(old(manager.nodes), desired, attempts).1
    {
      var running := Infos(manager.nodes);
      ghost var first := View(manager.nodes, running, manager.calls);
      for i := 0 to |desired|
        invariant View(manager.nodes, running, manager.calls) == ConvergeAll(first, desired[..i], attempts[..i])
      {
        hide ConvergeSpec;
        assert desired[..i + 1][..i] == desired[..i] && attempts[..i + 1][..i] == attempts[..i];
        running := Converge(desired[i], attempts[i], running);
      }
      assert desired[..|desired|] == desired && attempts[..|desired|] == attempts;
      CallsAccumulate(first, first.calls, desired, attempts);
      var orphans := Ascending(running.Keys - DesiredPorts(desired));
      SweepOrphans(orphans);
    }

    method SweepOrphans(orphans: seq<Port>)
      modifies manager
      ensures manager.nodes == old(manager.nodes) - (set p | p in orphans)
      ensures manager.calls == old(manager.calls) + StopsOf(orphans)
    {
      for i := 0 to |orphans|
        invariant manager.nodes == old(manager.nodes) - (set p | p in orphans[..i])
        invariant manager.calls == old(manager.calls) + StopsOf(orphans[..i])
      {
        manager.StopNode(orphans[i]);
        assert orphans[..i + 1] == orphans[..i] + [orphans[i]];
        assert StopsOf(orphans[..i + 1]) == StopsOf(orphans[..i]) + [Stop(orphans[i])];
      }
      assert orphans[..|orphans|] == orphans;
    }
  }

  /** What a pass does does not depend on the calls made before it. */
  lemma {:induction false} CallsAccumulate(v: View, log: seq<Call>, desired: seq<Desired>, attempts: seq<Attempt>)
    requires |attempts| == |desired| && v.calls == log
    ensures var r := ConvergeAll(v.(calls := []), desired, attempts);
            ConvergeAll(v, desired, attempts) == r.(calls := log + r.calls)
  {
    if desired != [] {
      var last := |desired| - 1;
      CallsAccumulate(v, log, desired[..last], attempts[..last]);
      CallsAppend(ConvergeAll(v.(calls := []), desired[..last], attempts[..last]), log, desired[last], attempts[last]);
      hide ConvergeSpec;
    }
  }

  lemma CallsAppend(v: View, log: seq<Call>, d: Desired, attempt: Attempt)
    ensures var r := ConvergeSpec(v, d, attempt);
            ConvergeSpec(v.(calls := log + v.calls), d, attempt) == r.(calls := log + r.calls)
  {
    assert (log + v.calls) + [Stop(d.port)] == log + (v.calls + [Stop(d.port)]);
  }
}
