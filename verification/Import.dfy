/** `reconstruct` of `simulator/src/topology/import.cpp`: a graph from its entity tables. */
module Import {
  import opened Prelude
  import opened Events
  import opened Topology
  import opened Routes
  import opened Builders
  import opened Rebuild
  import opened Graphs

  datatype ParsedTopology = ParsedTopology(
    racks: seq<Rack>, gpus: seq<GpuWorker>, nics: seq<NicCard>, switches: seq<NetworkSwitch>,
    ports: seq<Port>, links: seq<PhysicalLink>)

  function TablesOf(g: Graph): ParsedTopology {
    ParsedTopology(g.racks, g.gpus, g.nics, g.switches, g.ports, g.links)
  }

  /** The tables are those of a graph that builders and setters produced. */
  ghost predicate Fits(original: Graph, parsed: ParsedTopology) {
    Canonical(original) && TablesOf(original) == parsed
  }

  /** The first k calls of the original's canonical construction have been made. */
  ghost predicate Reached(original: Graph, g: Graph, k: nat) {
    k <= |Replay(Plain(original))| && Run(Empty(), Replay(Plain(original))[..k]) == Some(g)
  }

  lemma NothingReached(original: Graph)
    ensures Reached(original, Empty(), 0)
  {
    assert Replay(Plain(original))[..0] == [];
  }

  lemma {:induction false} PrefixRuns(ops: seq<Op>, k: nat)
    requires k <= |ops| && Run(Empty(), ops).Some?
    ensures Run(Empty(), ops[..k]).Some?
  {
    hide Apply, CanApply;
    assert ops == ops[..k] + ops[k..];
    RunSplit(Empty(), ops[..k], ops[k..]);
  }

  /** The next call of the canonical construction is accepted. */
  lemma NextCall(original: Graph, g: Graph, k: nat)
    requires Canonical(original) && Reached(original, g, k) && k < |Replay(Plain(original))|
    ensures CanApply(g, Replay(Plain(original))[k]) && Reached(original, Apply(g, Replay(Plain(original))[k]), k + 1)
  {
    hide Apply, CanApply, Replay, Plain, BuiltOk, Downs;
    var ops := Replay(Plain(original));
    PrefixRuns(ops, k + 1);
    assert ops[..k + 1][..k] == ops[..k];
  }

  // Tables only grow

  ghost predicate Grown(g: Graph, h: Graph) {
    g.ports <= h.ports && g.gpus <= h.gpus
  }

  lemma ApplyGrows(g: Graph, op: Op)
    requires CanApply(g, op)
    ensures Grown(g, Apply(g, op))
  {
    if op.Connect? {
      FabricGrows(g, op.a, op.roleA, op.b, op.roleB);
    } else if op.Attach? {
      GpuGrows(g, op.nic);
    } else {
      NodeGrows(g, op);
    }
  }

  lemma NodeGrows(g: Graph, op: Op)
    requires OpOk(g, op) && IsNode(op)
    ensures Grown(g, Apply(g, op))
  {
  }

  lemma WireGrows(g: Graph, a: NodeId, roleA: PortRole, b: NodeId, roleB: PortRole, kind: LinkKind)
    ensures Wire(g, a, roleA, b, roleB, kind).gpus == g.gpus
    ensures Wire(g, a, roleA, b, roleB, kind).ports == g.ports
            + [Port(|g.ports|, a, roleA, Up), Port(|g.ports| + 1, b, roleB, Up)]
  {
  }

  lemma FabricGrows(g: Graph, a: NodeId, roleA: PortRole, b: NodeId, roleB: PortRole)
    ensures Grown(g, AddFabric(g, a, roleA, b, roleB))
  {
    hide Wire;
    WireGrows(OwnPort(OwnPort(g, a, |g.ports|), b, |g.ports| + 1), a, roleA, b, roleB, FabricLink);
  }

  /** A new GPU and its port are the next entries of their tables. */
  lemma GpuGrows(g: Graph, nic: nat)
    requires nic < |g.nics| && g.nics[nic].rack < |g.racks|
    ensures var h := AddGpu(g, nic);
            && Grown(g, h) && h.gpus == g.gpus + [GpuWorker(|g.gpus|, g.nics[nic].rack, nic, |g.ports|)]
            && h.ports == g.ports + [Port(|g.ports|, Gpu(|g.gpus|), PortRole.Local, Up),
                                     Port(|g.ports| + 1, Nic(nic), PortRole.Local, Up)]
  {
    hide Wire;
    WireGrows(NewGpu(g, nic), Gpu(|g.gpus|), PortRole.Local, Nic(nic), PortRole.Local, LocalAttachment);
  }

  lemma {:induction false} RunGrows(g: Graph, ops: seq<Op>)
    requires Run(g, ops).Some?
    ensures Grown(g, Run(g, ops).value)
  {
    hide Apply, CanApply;
    if |ops| > 0 {
      RunGrows(g, ops[..|ops| - 1]);
      ApplyGrows(Run(g, ops[..|ops| - 1]).value, ops[|ops| - 1]);
    }
  }

  lemma ReachedGrows(original: Graph, g: Graph, k: nat)
    requires Canonical(original) && Reached(original, g, k)
    ensures Grown(g, Plain(original))
  {
    hide Replay, Plain, BuiltOk, Downs, Apply, CanApply;
    var ops := Replay(Plain(original));
    assert ops == ops[..k] + ops[k..];
    RunSplit(Empty(), ops[..k], ops[k..]);
    RunGrows(g, ops[k..]);
  }

  // The calls, kind by kind

  lemma CallAt(original: Graph, i: nat)
    ensures |Replay(Plain(original))| == |original.racks| + |original.nics| + |original.switches| + |original.links|
    ensures i < |original.racks| ==> Replay(Plain(original))[i] == NewRack
    ensures i < |original.nics| ==> Replay(Plain(original))[|original.racks| + i] == NewNic(original.nics[i].rack)
    ensures i < |original.switches| ==>
              Replay(Plain(original))[|original.racks| + |original.nics| + i] == SwitchOp(original.switches[i])
  {
  }

  lemma LinkCallAt(original: Graph, i: nat)
    requires i < |original.links|
    ensures var n := |original.racks| + |original.nics| + |original.switches|;
            n + i < |Replay(Plain(original))|
              && Replay(Plain(original))[n + i] == LinkOp(original.links[i], original.ports)
  {
    var g := Plain(original);
    assert Replay(g)[|original.racks| + |original.nics| + |original.switches| + i] == Links(g)[i];
    assert LinkOp(g.links[i], g.ports) == LinkOp(original.links[i], original.ports);
  }

  /** The tables of such a graph are dense. */
  lemma TablesDense(original: Graph)
    requires Canonical(original)
    ensures (forall i :: 0 <= i < |original.racks| ==> original.racks[i].id == i)
    ensures (forall i :: 0 <= i < |original.nics| ==> original.nics[i].id == i)
    ensures (forall i :: 0 <= i < |original.switches| ==> original.switches[i].id == i)
    ensures (forall i :: 0 <= i < |original.gpus| ==> original.gpus[i].id == i)
    ensures (forall i :: 0 <= i < |original.ports| ==> original.ports[i].id == i)
    ensures |original.ports| == 2 * |original.links|
    ensures (forall i :: 0 <= i < |original.links| ==>
               original.links[i].id == i && original.links[i].endpointA == 2 * i
                 && original.links[i].endpointB == 2 * i + 1)
  {
    hide Canonical;
    CanonicalShaped(original);
  }

  method CreateRacks(graph: TopologyGraph, parsed: ParsedTopology, ghost original: Graph) returns (r: Result<()>)
    requires graph.Valid() && graph.View() == Empty()
    modifies graph
    ensures graph.Valid() && (r.Ok? ==> |graph.racks| == |parsed.racks| && graph.nics == [] && graph.switches == []
                                        && graph.links == [])
    ensures Fits(original, parsed) ==> r.Ok? && Reached(original, graph.View(), |parsed.racks|)
  {
    hide Canonical, Reached, CanApply;
    NothingReached(original);
    for i := 0 to |parsed.racks|
      invariant graph.Valid() && |graph.racks| == i && graph.nics == [] && graph.switches == [] && graph.links == []
      invariant Fits(original, parsed) ==> Reached(original, graph.View(), i)
    {
      CallAt(original, i);
      if Fits(original, parsed) {
        NextCall(original, graph.View(), i);
        TablesDense(original);
      }
      var id := graph.AddRack();
      if id != parsed.racks[i].id {
        return Throw(InvalidArgument);
      }
    }
    return Ok(());
  }

  method CreateNics(graph: TopologyGraph, parsed: ParsedTopology, ghost original: Graph) returns (r: Result<()>)
    requires graph.Valid() && graph.nics == [] && graph.switches == [] && graph.links == []
    requires Fits(original, parsed) ==> Reached(original, graph.View(), |parsed.racks|)
    modifies graph
    ensures graph.Valid() && (r.Ok? ==> graph.switches == [] && graph.links == [])
    ensures Fits(original, parsed) ==> r.Ok? && Reached(original, graph.View(), |parsed.racks| + |parsed.nics|)
  {
    hide Canonical, Reached, CanApply;
    for i := 0 to |parsed.nics|
      invariant graph.Valid() && |graph.nics| == i && graph.switches == [] && graph.links == []
      invariant Fits(original, parsed) ==> Reached(original, graph.View(), |parsed.racks| + i)
    {
      CallAt(original, i);
      if Fits(original, parsed) {
        NextCall(original, graph.View(), |parsed.racks| + i);
        TablesDense(original);
      }
      var added := graph.AddNic(parsed.nics[i].rack);
      if added.Throw? {
        return Throw(added.error);
      }
      if added.value != parsed.nics[i].id {
        return Throw(InvalidArgument);
      }
    }
    return Ok(());
  }

  method CreateSwitches(graph: TopologyGraph, parsed: ParsedTopology, ghost original: Graph) returns (r: Result<()>)
    requires graph.Valid() && graph.switches == [] && graph.links == []
    requires Fits(original, parsed) ==> Reached(original, graph.View(), |parsed.racks| + |parsed.nics|)
    modifies graph
    ensures graph.Valid() && (r.Ok? ==> graph.links == [])
    ensures Fits(original, parsed) ==>
              r.Ok? && Reached(original, graph.View(), |parsed.racks| + |parsed.nics| + |parsed.switches|)
  {
    hide Canonical, Reached, CanApply;
    for i := 0 to |parsed.switches|
      invariant graph.Valid() && |graph.switches| == i && graph.links == []
      invariant Fits(original, parsed) ==> Reached(original, graph.View(), |parsed.racks| + |parsed.nics| + i)
    {
      CallAt(original, i);
      if Fits(original, parsed) {
        NextCall(original, graph.View(), |parsed.racks| + |parsed.nics| + i);
        TablesDense(original);
      }
      var entity := parsed.switches[i];
      var id := 0;
      if entity.role == Leaf {
        var added := graph.AddLeafSwitch(if entity.rack.Some? then entity.rack.value else U64_MAX);
        if added.Throw? {
          return Throw(added.error);
        }
        id := added.value;
      } else {
        id := graph.AddSpineSwitch();
      }
      if id != entity.id {
        return Throw(InvalidArgument);
      }
    }
    return Ok(());
  }

  // Links

  /** What replaying a local attachment of such a graph finds in its tables. */
  lemma AttachmentFound(original: Graph, g: Graph, i: nat)
    requires Canonical(original) && i < |original.links| && original.links[i].kind == LocalAttachment && |g.links| == i
             && Shaped(g)
    requires Reached(original, g, |original.racks| + |original.nics| + |original.switches| + i)
    ensures var link := original.links[i];
            && link.endpointA < |original.ports| && link.endpointB < |original.ports|
            && (var a, b := original.ports[link.endpointA], original.ports[link.endpointB];
                && a.owner == Gpu(|g.gpus|) && a.role == PortRole.Local && b.owner.Nic? && b.role == PortRole.Local
                && |g.gpus| < |original.gpus| && original.gpus[|g.gpus|].id == |g.gpus|
                && original.gpus[|g.gpus|].attachedNic == b.owner.id && CanApply(g, Attach(b.owner.id))
                && Reached(original, Apply(g, Attach(b.owner.id)),
                           |original.racks| + |original.nics| + |original.switches| + i + 1))
  {
    hide Canonical, Reached;
    var k := |original.racks| + |original.nics| + |original.switches| + i;
    TablesDense(original);
    LinkCallAt(original, i);
    NextCall(original, g, k);
    var op := Replay(Plain(original))[k];
    assert op.Attach?;
    hide Replay;
    ReachedGrows(original, Apply(g, op), k + 1);
    GpuGrows(g, op.nic);
    PortsAt(g, i);
    assert Plain(original).ports[2 * i] == original.ports[2 * i].(state := Up);
    assert Plain(original).ports[2 * i + 1] == original.ports[2 * i + 1].(state := Up);
  }

  lemma PortsAt(g: Graph, i: nat)
    requires Shaped(g) && |g.links| == i
    ensures |g.ports| == 2 * i
  {
  }

  lemma FabricFound(original: Graph, g: Graph, i: nat)
    requires Canonical(original) && i < |original.links| && original.links[i].kind == FabricLink
    requires Reached(original, g, |original.racks| + |original.nics| + |original.switches| + i)
    ensures var link := original.links[i];
            && link.endpointA < |original.ports| && link.endpointB < |original.ports|
            && (var a, b := original.ports[link.endpointA], original.ports[link.endpointB];
                && CanApply(g, Connect(a.owner, a.role, b.owner, b.role))
                && Reached(original, Apply(g, Connect(a.owner, a.role, b.owner, b.role)),
                           |original.racks| + |original.nics| + |original.switches| + i + 1))
  {
    hide Canonical, Reached, CanApply, Apply;
    TablesDense(original);
    LinkCallAt(original, i);
    NextCall(original, g, |original.racks| + |original.nics| + |original.switches| + i);
  }

  ghost function Nodes(parsed: ParsedTopology): nat {
    |parsed.racks| + |parsed.nics| + |parsed.switches|
  }

  /** `replay_local_attachment`. */
  method ReplayLocal(graph: TopologyGraph, parsed: ParsedTopology, i: nat, ghost original: Graph)
    returns (r: Result<()>)
    requires graph.Valid() && i < |parsed.links| && parsed.links[i].kind == LocalAttachment && |graph.links| == i
    requires Fits(original, parsed) ==> Reached(original, graph.View(), Nodes(parsed) + i)
    modifies graph
    ensures graph.Valid() && (r.Ok? ==> |graph.links| == i + 1)
    ensures Fits(original, parsed) ==> r.Ok? && Reached(original, graph.View(), Nodes(parsed) + i + 1)
  {
    hide Canonical, Reached, Shaped;
    CanonicalShaped(graph.View());
    var link := parsed.links[i];
    if Fits(original, parsed) {
      AttachmentFound(original, graph.View(), i);
      TablesDense(original);
    }
    if link.endpointA >= |parsed.ports| || link.endpointB >= |parsed.ports| {
      return Throw(InvalidArgument);
    }
    var gpuPort, nicPort := parsed.ports[link.endpointA], parsed.ports[link.endpointB];
    if !gpuPort.owner.Gpu? || !nicPort.owner.Nic? || gpuPort.role != PortRole.Local || nicPort.role != PortRole.Local {
      return Throw(InvalidArgument);
    }
    if gpuPort.owner.id >= |parsed.gpus| {
      return Throw(InvalidArgument);
    }
    var gpu := parsed.gpus[gpuPort.owner.id];
    if gpu.attachedNic != nicPort.owner.id {
      return Throw(InvalidArgument);
    }
    ghost var before := graph.View();
    var added := graph.AddGpu(gpu.attachedNic);
    if added.Throw? {
      return Throw(added.error);
    }
    AttachLinks(before, gpu.attachedNic);
    if added.value != gpu.id {
      return Throw(InvalidArgument);
    }
    if !HasLink(graph.View(), link.id) {
      KnownLink(graph.View(), i);
      return Throw(InvalidArgument);
    }
    return Ok(());
  }

  lemma AttachLinks(g: Graph, nic: nat)
    requires CanApply(g, Attach(nic))
    ensures |Apply(g, Attach(nic)).links| == |g.links| + 1
  {
  }

  lemma ConnectLinks(g: Graph, op: Op)
    requires CanApply(g, op) && op.Connect?
    ensures |Apply(g, op).links| == |g.links| + 1
  {
  }

  lemma KnownLink(g: Graph, i: nat)
    requires Canonical(g) && |g.links| == i + 1
    ensures HasLink(g, i)
  {
    hide Canonical;
    TablesDense(g);
  }

  /** `replay_fabric_link`. */
  method ReplayFabric(graph: TopologyGraph, parsed: ParsedTopology, i: nat, ghost original: Graph)
    returns (r: Result<()>)
    requires graph.Valid() && i < |parsed.links| && parsed.links[i].kind == FabricLink && |graph.links| == i
    requires Fits(original, parsed) ==> Reached(original, graph.View(), Nodes(parsed) + i)
    modifies graph
    ensures graph.Valid() && (r.Ok? ==> |graph.links| == i + 1)
    ensures Fits(original, parsed) ==> r.Ok? && Reached(original, graph.View(), Nodes(parsed) + i + 1)
  {
    hide Canonical, Reached, CanApply;
    var link := parsed.links[i];
    if Fits(original, parsed) {
      FabricFound(original, graph.View(), i);
      TablesDense(original);
    }
    if link.endpointA >= |parsed.ports| || link.endpointB >= |parsed.ports| {
      return Throw(InvalidArgument);
    }
    var a, b := parsed.ports[link.endpointA], parsed.ports[link.endpointB];
    ghost var before := graph.View();
    var connected := graph.ConnectFabric(a.owner, a.role, b.owner, b.role);
    if connected.Throw? {
      return Throw(connected.error);
    }
    ConnectLinks(before, Connect(a.owner, a.role, b.owner, b.role));
    if connected.value != link.id {
      return Throw(InvalidArgument);
    }
    return Ok(());
  }

  method ReplayLinks(graph: TopologyGraph, parsed: ParsedTopology, ghost original: Graph) returns (r: Result<()>)
    requires graph.Valid() && graph.links == []
    requires Fits(original, parsed) ==> Reached(original, graph.View(), Nodes(parsed))
    modifies graph
    ensures graph.Valid()
    ensures Fits(original, parsed) ==> r.Ok? && graph.View() == Plain(original)
  {
    hide Canonical, Reached, Plain;
    for i := 0 to |parsed.links|
      invariant graph.Valid() && |graph.links| == i
      invariant Fits(original, parsed) ==> Reached(original, graph.View(), Nodes(parsed) + i)
    {
      if parsed.links[i].kind == LocalAttachment {
        r := ReplayLocal(graph, parsed, i, original);
      } else {
        r := ReplayFabric(graph, parsed, i, original);
      }
      if r.Throw? {
        return;
      }
    }
    if Fits(original, parsed) {
      AllReached(original, graph.View());
    }
    return Ok(());
  }

  lemma AllReached(original: Graph, g: Graph)
    requires Canonical(original)
    requires Reached(original, g, |original.racks| + |original.nics| + |original.switches| + |original.links|)
    ensures g == Plain(original)
  {
    hide Run, BuiltOk, Downs;
    CallAt(original, 0);
    var ops := Replay(Plain(original));
    assert ops[..|ops|] == ops;
  }

  // Operational state

  /** The plain graph with the states of the first i switches, j ports and k links restored. */
  ghost function Restored(o: Graph, i: nat, j: nat, k: nat): Graph
    requires i <= |o.switches| && j <= |o.ports| && k <= |o.links|
  {
    Plain(o).(switches := o.switches[..i] + UpSwitches(o.switches)[i..], ports := o.ports[..j] + UpPorts(o.ports)[j..],
              links := o.links[..k] + UpLinks(o.links)[k..],
              revision := CountDown(SwitchStates(o.switches)[..i]) + CountDown(PortStates(o.ports)[..j])
                          + CountDown(LinkStates(o.links)[..k]))
  }

  lemma {:induction false} CountDownPrefix(states: seq<OperationalState>, i: nat)
    requires i < |states|
    ensures CountDown(states[..i + 1]) == CountDown(states[..i]) + (if states[i] == Down then 1 else 0)
    ensures CountDown(states[..i + 1]) <= CountDown(states)
    decreases |states|
  {
    assert states[..i + 1][..i] == states[..i];
    var last := |states| - 1;
    if i < last {
      CountDownPrefix(states[..last], i);
      assert states[..last][..i + 1] == states[..i + 1] && states[..last][..i] == states[..i];
    } else {
      assert states[..i + 1] == states;
    }
  }

  lemma CountDownWhole(states: seq<OperationalState>)
    ensures CountDown(states[..0]) == 0 && CountDown(states[..|states|]) == CountDown(states)
  {
    assert states[..|states|] == states;
  }

  /** Restoring one more entry of a table. */
  lemma MixedNext<T>(a: seq<T>, b: seq<T>, i: nat)
    requires |a| == |b| && i < |a|
    ensures (a[..i] + b[i..])[i] == b[i]
    ensures (a[..i] + b[i..])[i := a[i]] == a[..i + 1] + b[i + 1..]
    ensures a[i] == b[i] ==> a[..i] + b[i..] == a[..i + 1] + b[i + 1..]
  {
  }

  lemma DownsWithin(o: Graph)
    requires Canonical(o)
    ensures CountDown(SwitchStates(o.switches)) + CountDown(PortStates(o.ports))
            + CountDown(LinkStates(o.links)) <= U64_MAX
  {
    hide Replays;
  }

  lemma RestoreSwitch(o: Graph, i: nat)
    requires Canonical(o) && i < |o.switches|
    ensures SetSwitchState(Restored(o, i, 0, 0), i, o.switches[i].state) == (Restored(o, i + 1, 0, 0), true)
  {
    hide Canonical, CountDown;
    TablesDense(o);
    DownsWithin(o);
    CountDownPrefix(SwitchStates(o.switches), i);
    CountDownWhole(PortStates(o.ports));
    CountDownWhole(LinkStates(o.links));
    MixedNext(o.switches, UpSwitches(o.switches), i);
    assert o.switches[i].state == Up ==> o.switches[i] == UpSwitches(o.switches)[i];
  }

  lemma RestorePort(o: Graph, j: nat)
    requires Canonical(o) && j < |o.ports|
    ensures SetPortState(Restored(o, |o.switches|, j, 0), j, o.ports[j].state)
            == (Restored(o, |o.switches|, j + 1, 0), true)
  {
    hide Canonical, CountDown;
    TablesDense(o);
    DownsWithin(o);
    CountDownPrefix(PortStates(o.ports), j);
    CountDownWhole(SwitchStates(o.switches));
    CountDownWhole(LinkStates(o.links));
    MixedNext(o.ports, UpPorts(o.ports), j);
    assert o.ports[j].state == Up ==> o.ports[j] == UpPorts(o.ports)[j];
  }

  lemma RestoreLink(o: Graph, k: nat)
    requires Canonical(o) && k < |o.links|
    ensures SetLinkState(Restored(o, |o.switches|, |o.ports|, k), k, o.links[k].state)
         == (Restored(o, |o.switches|, |o.ports|, k + 1), true)
  {
    hide Canonical, CountDown;
    TablesDense(o);
    DownsWithin(o);
    CountDownPrefix(LinkStates(o.links), k);
    CountDownWhole(SwitchStates(o.switches));
    CountDownWhole(PortStates(o.ports));
    MixedNext(o.links, UpLinks(o.links), k);
    assert o.links[k].state == Up ==> o.links[k] == UpLinks(o.links)[k];
  }

  lemma RestoreEnds(o: Graph)
    ensures Restored(o, 0, 0, 0) == Plain(o)
    ensures Restored(o, |o.switches|, |o.ports|, |o.links|) == o.(revision := Downs(o))
  {
    hide CountDown;
    CountDownWhole(SwitchStates(o.switches));
    CountDownWhole(PortStates(o.ports));
    CountDownWhole(LinkStates(o.links));
    var none, all := Restored(o, 0, 0, 0), Restored(o, |o.switches|, |o.ports|, |o.links|);
    assert none.switches == UpSwitches(o.switches) && none.ports == UpPorts(o.ports) && none.links == UpLinks(o.links);
    assert all.switches == o.switches && all.ports == o.ports && all.links == o.links;
  }

  /** `restore_operational_state`. */
  method Restore(graph: TopologyGraph, parsed: ParsedTopology, ghost o: Graph) returns (r: Result<()>)
    requires graph.Valid() && (Fits(o, parsed) ==> graph.View() == Plain(o))
    modifies graph
    ensures graph.Valid() && (Fits(o, parsed) ==> r.Ok? && graph.View() == o.(revision := Downs(o)))
  {
    hide Canonical, Plain, Restored, Downs;
    RestoreEnds(o);
    if Fits(o, parsed) {
      TablesDense(o);
    }
    for i := 0 to |parsed.switches|
      invariant graph.Valid() && (Fits(o, parsed) ==> graph.View() == Restored(o, i, 0, 0))
    {
      if Fits(o, parsed) {
        RestoreSwitch(o, i);
      }
      var done := graph.SetSwitchStateTo(parsed.switches[i].id, parsed.switches[i].state);
      if !done {
        return Throw(InvalidArgument);
      }
    }
    for j := 0 to |parsed.ports|
      invariant graph.Valid() && (Fits(o, parsed) ==> graph.View() == Restored(o, |parsed.switches|, j, 0))
    {
      if Fits(o, parsed) {
        RestorePort(o, j);
      }
      var done := graph.SetPortStateTo(parsed.ports[j].id, parsed.ports[j].state);
      if !done {
        return Throw(InvalidArgument);
      }
    }
    for k := 0 to |parsed.links|
      invariant graph.Valid() && (Fits(o, parsed) ==> graph.View() == Restored(o, |parsed.switches|, |parsed.ports|, k))
    {
      if Fits(o, parsed) {
        RestoreLink(o, k);
      }
      var done := graph.SetLinkStateTo(parsed.links[k].id, parsed.links[k].state);
      if !done {
        return Throw(InvalidArgument);
      }
    }
    return Ok(());
  }

  /**
   `reconstruct`. Whatever it accepts has exactly the tables it was given; and it accepts the tables of
   every graph that builders and setters can produce, in any order, and returns that graph.
   */
  method Reconstruct(parsed: ParsedTopology, valid: Graph -> bool, ghost original: Graph)
    returns (r: Result<TopologyGraph>)
    ensures r.Ok? ==> fresh(r.value) && r.value.Valid() && TablesOf(r.value.View()) == parsed && valid(r.value.View())
    ensures Fits(original, parsed) && valid(original.(revision := Downs(original))) ==>
              r.Ok? && r.value.View() == original.(revision := Downs(original))
  {
    hide Canonical, Reached, Plain, Downs;
    var graph := new TopologyGraph();
    var created := CreateRacks(graph, parsed, original);
    if created.Throw? {
      return Throw(created.error);
    }
    created := CreateNics(graph, parsed, original);
    if created.Throw? {
      return Throw(created.error);
    }
    created := CreateSwitches(graph, parsed, original);
    if created.Throw? {
      return Throw(created.error);
    }
    created := ReplayLinks(graph, parsed, original);
    if created.Throw? {
      return Throw(created.error);
    }
    created := Restore(graph, parsed, original);
    if created.Throw? {
      return Throw(created.error);
    }
    if graph.racks != parsed.racks || graph.gpus != parsed.gpus || graph.nics != parsed.nics
       || graph.switches != parsed.switches || graph.ports != parsed.ports || graph.links != parsed.links {
      return Throw(InvalidArgument);
    }
    if !valid(graph.View()) {
      return Throw(InvalidArgument);
    }
    return Ok(graph);
  }
}
