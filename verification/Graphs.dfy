/**
 `TopologyGraph` of `simulator/src/topology/graph.cpp`: builders and state setters in place, and the
 invariant that every graph they can produce satisfies.
 */
module Graphs {
  import opened Prelude
  import opened Events
  import opened Topology
  import opened Routes
  import opened Builders
  import opened Rebuild

  // Operational state aside

  function UpSwitches(s: seq<NetworkSwitch>): (r: seq<NetworkSwitch>)
    ensures |r| == |s| && forall i :: 0 <= i < |s| ==> r[i] == s[i].(state := Up)
  {
    seq(|s|, i requires 0 <= i < |s| => s[i].(state := Up))
  }

  function UpPorts(s: seq<Port>): (r: seq<Port>)
    ensures |r| == |s| && forall i :: 0 <= i < |s| ==> r[i] == s[i].(state := Up)
  {
    seq(|s|, i requires 0 <= i < |s| => s[i].(state := Up))
  }

  function UpLinks(s: seq<PhysicalLink>): (r: seq<PhysicalLink>)
    ensures |r| == |s| && forall i :: 0 <= i < |s| ==> r[i] == s[i].(state := Up)
  {
    seq(|s|, i requires 0 <= i < |s| => s[i].(state := Up))
  }

  /** The graph as its builders left it, before any state was changed. */
  function Plain(g: Graph): Graph {
    g.(switches := UpSwitches(g.switches), ports := UpPorts(g.ports), links := UpLinks(g.links), revision := 0)
  }

  lemma PlainStructure(g: Graph)
    ensures SameStructure(Plain(g), g) && SameStructure(g, Plain(g))
  {
  }

  lemma PlainContains(g: Graph, n: NodeId)
    ensures Contains(Plain(g), n) <==> Contains(g, n)
    ensures Arcs(Plain(g), n) == Arcs(g, n)
  {
  }

  lemma PlainCanApply(g: Graph, op: Op)
    ensures CanApply(Plain(g), op) <==> CanApply(g, op)
  {
    match op {
      case Connect(a, _, b, _) =>
        PlainContains(g, a);
        PlainContains(g, b);
        hide Contains;
        assert DirectlyConnected(Plain(g), a, b) <==> DirectlyConnected(g, a, b);
      case _ =>
    }
  }

  lemma PlainPort(g: Graph, node: NodeId, port: nat)
    ensures Plain(OwnPort(g, node, port)) == OwnPort(Plain(g), node, port)
  {
    assert UpSwitches(OwnPort(g, node, port).switches) == OwnPort(Plain(g), node, port).switches;
  }

  lemma PlainArc(g: Graph, node: NodeId, arc: DirectedLink)
    ensures Plain(OwnArc(g, node, arc)) == OwnArc(Plain(g), node, arc)
  {
  }

  lemma PlainPlug(g: Graph, a: NodeId, roleA: PortRole, b: NodeId, roleB: PortRole, kind: LinkKind)
    ensures var link := PhysicalLink(|g.links|, |g.ports|, |g.ports| + 1, kind, Up);
            Plain(Plug(g, a, roleA, b, roleB, link)) == Plug(Plain(g), a, roleA, b, roleB, link)
  {
    var link := PhysicalLink(|g.links|, |g.ports|, |g.ports| + 1, kind, Up);
    var left, right := Plain(Plug(g, a, roleA, b, roleB, link)), Plug(Plain(g), a, roleA, b, roleB, link);
    assert left.ports == right.ports;
    assert left.links == right.links;
  }

  lemma PlainWire(g: Graph, a: NodeId, roleA: PortRole, b: NodeId, roleB: PortRole, kind: LinkKind)
    ensures Plain(Wire(g, a, roleA, b, roleB, kind)) == Wire(Plain(g), a, roleA, b, roleB, kind)
  {
    var link := PhysicalLink(|g.links|, |g.ports|, |g.ports| + 1, kind, Up);
    PlainPlug(g, a, roleA, b, roleB, kind);
    assert |Plain(g).links| == |g.links| && |Plain(g).ports| == |g.ports|;
    var plugged := Plug(g, a, roleA, b, roleB, link);
    PlainArc(plugged, a, Direction(link, AToB));
    PlainArc(OwnArc(plugged, a, Direction(link, AToB)), b, Direction(link, BToA));
    hide Plain, OwnArc, Plug;
  }

  lemma PlainApply(g: Graph, op: Op)
    requires CanApply(g, op)
    ensures CanApply(Plain(g), op) && Plain(Apply(g, op)) == Apply(Plain(g), op)
  {
    PlainCanApply(g, op);
    match op {
      case Attach(nic) =>
        assert Plain(NewGpu(g, nic)) == NewGpu(Plain(g), nic);
        PlainWire(NewGpu(g, nic), Gpu(|g.gpus|), PortRole.Local, Nic(nic), PortRole.Local, LocalAttachment);
        hide Plain, Wire, NewGpu;
      case Connect(a, roleA, b, roleB) =>
        var p := |g.ports|;
        PlainPort(g, a, p);
        PlainPort(OwnPort(g, a, p), b, p + 1);
        PlainWire(OwnPort(OwnPort(g, a, p), b, p + 1), a, roleA, b, roleB, FabricLink);
        assert |Plain(g).ports| == p;
        hide Plain, Wire, OwnPort;
      case NewLeaf(_) =>
        assert Plain(Apply(g, op)).switches == Apply(Plain(g), op).switches;
      case NewSpine =>
        assert Plain(Apply(g, op)).switches == Apply(Plain(g), op).switches;
      case _ =>
    }
  }

  // How many entities are down

  ghost function CountDown(states: seq<OperationalState>): nat {
    if |states| == 0 then 0 else CountDown(states[..|states| - 1]) + (if states[|states| - 1] == Down then 1 else 0)
  }

  ghost function SwitchStates(s: seq<NetworkSwitch>): (r: seq<OperationalState>)
    ensures |r| == |s| && forall i :: 0 <= i < |s| ==> r[i] == s[i].state
  {
    seq(|s|, i requires 0 <= i < |s| => s[i].state)
  }

  ghost function PortStates(s: seq<Port>): (r: seq<OperationalState>)
    ensures |r| == |s| && forall i :: 0 <= i < |s| ==> r[i] == s[i].state
  {
    seq(|s|, i requires 0 <= i < |s| => s[i].state)
  }

  ghost function LinkStates(s: seq<PhysicalLink>): (r: seq<OperationalState>)
    ensures |r| == |s| && forall i :: 0 <= i < |s| ==> r[i] == s[i].state
  {
    seq(|s|, i requires 0 <= i < |s| => s[i].state)
  }

  ghost function Downs(g: Graph): nat {
    CountDown(SwitchStates(g.switches)) + CountDown(PortStates(g.ports)) + CountDown(LinkStates(g.links))
  }

  lemma {:induction false} CountDownUpdate(states: seq<OperationalState>, i: nat, state: OperationalState)
    requires i < |states|
    ensures CountDown(states[i := state]) + (if states[i] == Down then 1 else 0) == CountDown(states)
            + (if state == Down then 1 else 0)
  {
    var last := |states| - 1;
    if i == last {
      assert states[i := state][..last] == states[..last];
    } else {
      CountDownUpdate(states[..last], i, state);
      assert states[i := state][..last] == states[..last][i := state];
    }
  }

  lemma {:induction false} CountDownMore(states: seq<OperationalState>, more: seq<OperationalState>)
    requires forall i :: 0 <= i < |more| ==> more[i] == Up
    ensures CountDown(states + more) == CountDown(states)
  {
    if |more| == 0 {
      assert states + more == states;
    } else {
      CountDownMore(states, more[..|more| - 1]);
      assert (states + more)[..|states + more| - 1] == states + more[..|more| - 1];
    }
  }

  /** Entities keep their states, and new ones are up. */
  ghost predicate MoreUp(g: Graph, h: Graph) {
    && |g.switches| <= |h.switches| && |g.ports| <= |h.ports| && |g.links| <= |h.links| && h.revision == g.revision
    && (forall i :: 0 <= i < |h.switches| ==>
          h.switches[i].state == if i < |g.switches| then g.switches[i].state else Up)
    && (forall i :: 0 <= i < |h.ports| ==> h.ports[i].state == if i < |g.ports| then g.ports[i].state else Up)
    && (forall i :: 0 <= i < |h.links| ==> h.links[i].state == if i < |g.links| then g.links[i].state else Up)
  }

  lemma MoreUpTransitive(g: Graph, h: Graph, k: Graph)
    requires MoreUp(g, h) && MoreUp(h, k)
    ensures MoreUp(g, k)
  {
  }

  lemma PartsMoreUp(g: Graph, node: NodeId, port: nat, arc: DirectedLink)
    ensures MoreUp(g, OwnPort(g, node, port)) && MoreUp(g, OwnArc(g, node, arc))
  {
  }

  lemma WireMoreUp(g: Graph, a: NodeId, roleA: PortRole, b: NodeId, roleB: PortRole, kind: LinkKind)
    ensures MoreUp(g, Wire(g, a, roleA, b, roleB, kind))
  {
    var link := PhysicalLink(|g.links|, |g.ports|, |g.ports| + 1, kind, Up);
    var h := Plug(g, a, roleA, b, roleB, link);
    assert MoreUp(g, h);
    hide MoreUp, Plug, OwnArc;
    PartsMoreUp(h, a, 0, Direction(link, AToB));
    PartsMoreUp(OwnArc(h, a, Direction(link, AToB)), b, 0, Direction(link, BToA));
    MoreUpTransitive(g, h, OwnArc(h, a, Direction(link, AToB)));
    MoreUpTransitive(g, OwnArc(h, a, Direction(link, AToB)), Wire(g, a, roleA, b, roleB, kind));
  }

  lemma NodeMoreUp(g: Graph, op: Op)
    requires OpOk(g, op) && IsNode(op)
    ensures MoreUp(g, Apply(g, op))
  {
  }

  lemma GpuMoreUp(g: Graph, nic: nat)
    requires nic < |g.nics| && g.nics[nic].rack < |g.racks|
    ensures MoreUp(g, AddGpu(g, nic))
  {
    assert MoreUp(g, NewGpu(g, nic));
    hide MoreUp, NewGpu, Wire;
    WireMoreUp(NewGpu(g, nic), Gpu(|g.gpus|), PortRole.Local, Nic(nic), PortRole.Local, LocalAttachment);
    MoreUpTransitive(g, NewGpu(g, nic), AddGpu(g, nic));
  }

  lemma FabricMoreUp(g: Graph, a: NodeId, roleA: PortRole, b: NodeId, roleB: PortRole)
    ensures MoreUp(g, AddFabric(g, a, roleA, b, roleB))
  {
    hide MoreUp, OwnPort, Wire;
    var p := |g.ports|;
    var h := OwnPort(g, a, p);
    var k := OwnPort(h, b, p + 1);
    var arc := DirectedLink(DirectedLinkId(0, AToB), 0, 0);
    PartsMoreUp(g, a, p, arc);
    PartsMoreUp(h, b, p + 1, arc);
    MoreUpTransitive(g, h, k);
    WireMoreUp(k, a, roleA, b, roleB, FabricLink);
    MoreUpTransitive(g, k, AddFabric(g, a, roleA, b, roleB));
  }

  lemma ApplyMoreUp(g: Graph, op: Op)
    requires CanApply(g, op)
    ensures MoreUp(g, Apply(g, op))
  {
    hide MoreUp, AddGpu, AddFabric, AddRack, AddNic, AddSwitch, Contains, DirectlyConnected;
    match op {
      case Attach(nic) => GpuMoreUp(g, nic);
      case Connect(a, roleA, b, roleB) => FabricMoreUp(g, a, roleA, b, roleB);
      case _ => NodeMoreUp(g, op);
    }
  }

  lemma MoreUpDowns(g: Graph, h: Graph)
    requires MoreUp(g, h)
    ensures Downs(h) == Downs(g)
  {
    hide CountDown;
    CountDownMore(SwitchStates(g.switches), SwitchStates(h.switches)[|g.switches|..]);
    CountDownMore(PortStates(g.ports), PortStates(h.ports)[|g.ports|..]);
    CountDownMore(LinkStates(g.links), LinkStates(h.links)[|g.links|..]);
    assert SwitchStates(h.switches) == SwitchStates(g.switches) + SwitchStates(h.switches)[|g.switches|..];
    assert PortStates(h.ports) == PortStates(g.ports) + PortStates(h.ports)[|g.ports|..];
    assert LinkStates(h.links) == LinkStates(g.links) + LinkStates(h.links)[|g.links|..];
  }

  /** Builders add entities that are up. */
  lemma ApplyDowns(g: Graph, op: Op)
    requires CanApply(g, op)
    ensures Downs(Apply(g, op)) == Downs(g) && Apply(g, op).revision == g.revision
  {
    ApplyMoreUp(g, op);
    hide Apply, CanApply, Downs;
    MoreUpDowns(g, Apply(g, op));
  }

  // Every graph that builders and setters can produce

  /** Its canonical replay is exact, and each entity that is down has cost a revision. */
  ghost predicate Canonical(g: Graph) {
    Replays(Plain(g)) && Downs(g) <= g.revision <= U64_MAX
  }

  lemma EmptyCanonical()
    ensures Canonical(Empty())
  {
    EmptyReplays();
    assert Plain(Empty()) == Empty();
  }

  lemma CanonicalShaped(g: Graph)
    requires Canonical(g)
    ensures Shaped(g)
  {
    hide Run, AdjacencyOk, KindsOk, Downs;
    assert Shaped(Plain(g));
    forall i | 0 <= i < |g.ports| ensures g.ports[i].id == i && Contains(g, g.ports[i].owner) {
      assert Plain(g).ports[i].id == i && Contains(Plain(g), Plain(g).ports[i].owner);
      PlainContains(g, g.ports[i].owner);
    }
    forall i | 0 <= i < |g.links|
      ensures g.links[i].id == i && g.links[i].endpointA == 2 * i && g.links[i].endpointB == 2 * i + 1 {
      assert Plain(g).links[i] == g.links[i].(state := Up);
    }
    forall i | 0 <= i < |g.switches| ensures g.switches[i].id == i {
      assert Plain(g).switches[i] == g.switches[i].(state := Up);
    }
  }

  /** What routing relies on holds of every such graph. */
  lemma CanonicalRoutes(g: Graph)
    requires Canonical(g)
    ensures AdjacencyOk(g) && KindsOk(g)
  {
    hide Run, Shaped, AdjacencyOk, KindsOk, Downs, Plain;
    PlainStructure(g);
    StructureKeepsArcs(Plain(g), g);
  }

  lemma ApplyCanonical(g: Graph, op: Op)
    requires Canonical(g) && CanApply(g, op)
    ensures Canonical(Apply(g, op))
  {
    hide Replays, Downs, Apply, CanApply, Plain;
    CanonicalShaped(g);
    PlainApply(g, op);
    ApplyReplays(Plain(g), op);
    ApplyDowns(g, op);
  }

  lemma SetterCanonical(g: Graph, h: Graph)
    requires Canonical(g) && SameStructure(g, h) && Downs(h) <= h.revision <= U64_MAX
    ensures Canonical(h)
  {
    hide Replays, Downs;
    assert Plain(h) == Plain(g);
  }

  lemma SwitchDowns(g: Graph, id: nat, state: OperationalState)
    requires Canonical(g)
    ensures Canonical(SetSwitchState(g, id, state).0)
  {
    hide Replays, CountDown;
    var h := SetSwitchState(g, id, state).0;
    SwitchSetterIsChange(g, id, state);
    if h != g {
      CountDownUpdate(SwitchStates(g.switches), id, state);
      assert SwitchStates(h.switches) == SwitchStates(g.switches)[id := state];
      SetterCanonical(g, h);
    }
  }

  lemma PortDowns(g: Graph, id: nat, state: OperationalState)
    requires Canonical(g)
    ensures Canonical(SetPortState(g, id, state).0)
  {
    hide Replays, CountDown;
    var h := SetPortState(g, id, state).0;
    PortSetterIsChange(g, id, state);
    if h != g {
      CountDownUpdate(PortStates(g.ports), id, state);
      assert PortStates(h.ports) == PortStates(g.ports)[id := state];
      SetterCanonical(g, h);
    }
  }

  lemma LinkDowns(g: Graph, id: nat, state: OperationalState)
    requires Canonical(g)
    ensures Canonical(SetLinkState(g, id, state).0)
  {
    hide Replays, CountDown;
    var h := SetLinkState(g, id, state).0;
    LinkSetterIsChange(g, id, state);
    if h != g {
      CountDownUpdate(LinkStates(g.links), id, state);
      assert LinkStates(h.links) == LinkStates(g.links)[id := state];
      SetterCanonical(g, h);
    }
  }

  class TopologyGraph {
    var racks: seq<Rack>
    var gpus: seq<GpuWorker>
    var nics: seq<NicCard>
    var switches: seq<NetworkSwitch>
    var ports: seq<Port>
    var links: seq<PhysicalLink>
    var gpuArcs: seq<seq<DirectedLink>>
    var nicArcs: seq<seq<DirectedLink>>
    var switchArcs: seq<seq<DirectedLink>>
    var revision: nat

    function View(): Graph
      reads this
    {
      Graph(racks, gpus, nics, switches, ports, links, gpuArcs, nicArcs, switchArcs, revision)
    }

    ghost predicate Valid()
      reads this
    {
      Canonical(View())
    }

    constructor ()
      ensures Valid() && View() == Empty()
    {
      hide Canonical;
      racks, gpus, nics, switches, ports, links := [], [], [], [], [], [];
      gpuArcs, nicArcs, switchArcs, revision := [], [], [], 0;
      EmptyCanonical();
    }

    method AddRack() returns (id: nat)
      requires Valid()
      modifies this
      ensures Valid() && View() == Apply(old(View()), NewRack) && id == |old(racks)|
    {
      hide Canonical;
      ApplyCanonical(View(), NewRack);
      id := |racks|;
      racks := racks + [Rack(id, [], [], [])];
    }

    method AddNic(rack: nat) returns (r: Result<nat>)
      requires Valid()
      modifies this
      ensures Valid() && (r.Ok? <==> CanApply(old(View()), NewNic(rack))) && (r.Throw? ==> r.error == InvalidArgument)
      ensures if r.Ok? then View() == Apply(old(View()), NewNic(rack)) && r.value == |old(nics)|
              else View() == old(View())
    {
      hide Canonical;
      if rack >= |racks| {
        return Throw(InvalidArgument);
      }
      ApplyCanonical(View(), NewNic(rack));
      var id := |nics|;
      nics := nics + [NicCard(id, rack, [], [])];
      nicArcs := nicArcs + [[]];
      NoMore(racks[rack]);
      racks := racks[rack := racks[rack].(nics := racks[rack].nics + [id])];
      assert View() == Apply(old(View()), NewNic(rack));
      return Ok(id);
    }

    method AddLeafSwitch(rack: nat) returns (r: Result<nat>)
      requires Valid()
      modifies this
      ensures Valid() && (r.Ok? <==> CanApply(old(View()), NewLeaf(rack))) && (r.Throw? ==> r.error == InvalidArgument)
      ensures if r.Ok? then View() == Apply(old(View()), NewLeaf(rack)) && r.value == |old(switches)|
              else View() == old(View())
    {
      hide Canonical;
      if rack >= |racks| {
        return Throw(InvalidArgument);
      }
      ApplyCanonical(View(), NewLeaf(rack));
      var id := |switches|;
      switches := switches + [NetworkSwitch(id, Some(rack), Leaf, [], Up)];
      switchArcs := switchArcs + [[]];
      NoMore(racks[rack]);
      racks := racks[rack := racks[rack].(leafSwitches := racks[rack].leafSwitches + [id])];
      assert View() == Apply(old(View()), NewLeaf(rack));
      return Ok(id);
    }

    method AddSpineSwitch() returns (id: nat)
      requires Valid()
      modifies this
      ensures Valid() && View() == Apply(old(View()), NewSpine) && id == |old(switches)|
    {
      hide Canonical;
      ApplyCanonical(View(), NewSpine);
      id := |switches|;
      switches := switches + [NetworkSwitch(id, None, Spine, [], Up)];
      switchArcs := switchArcs + [[]];
    }

    method AddGpu(nic: nat) returns (r: Result<nat>)
      requires Valid()
      modifies this
      ensures Valid() && (r.Ok? <==> CanApply(old(View()), Attach(nic))) && (r.Throw? ==> r.error == InvalidArgument)
      ensures if r.Ok? then View() == Apply(old(View()), Attach(nic)) && r.value == |old(gpus)|
              else View() == old(View())
    {
      hide Canonical, Wire;
      CanonicalShaped(View());
      if nic >= |nics| {
        return Throw(InvalidArgument);
      }
      ApplyCanonical(View(), Attach(nic));
      var gpu := |gpus|;
      GpuShaped(View(), nic);
      PlaceGpu(nic, gpu, |ports|, |ports| + 1);
      AppendLink(Gpu(gpu), PortRole.Local, Nic(nic), PortRole.Local, LocalAttachment);
      return Ok(gpu);
    }

    /** The tables of a new GPU, its NIC and its rack. */
    method PlaceGpu(nic: nat, gpu: nat, gpuPort: nat, nicPort: nat)
      requires nic < |nics| && nics[nic].rack < |racks| && gpu == |gpus| && gpuPort == |ports| && nicPort == |ports| + 1
      modifies this`gpus, this`gpuArcs, this`nics, this`racks
      ensures View() == NewGpu(old(View()), nic)
    {
      var rack := nics[nic].rack;
      gpus := gpus + [GpuWorker(gpu, rack, nic, gpuPort)];
      gpuArcs := gpuArcs + [[]];
      nics := nics[nic := nics[nic].(attachedGpus := nics[nic].attachedGpus + [gpu])];
      nics := nics[nic := nics[nic].(ports := nics[nic].ports + [nicPort])];
      NoMore(racks[rack]);
      racks := racks[rack := racks[rack].(gpus := racks[rack].gpus + [gpu])];
    }

    /** `append_owner_port`. */
    method AppendOwnerPort(node: NodeId, port: nat)
      requires !node.Gpu? && Contains(View(), node)
      modifies this`nics, this`switches
      ensures View() == OwnPort(old(View()), node, port)
    {
      match node {
        case Nic(id) => nics := nics[id := nics[id].(ports := nics[id].ports + [port])];
        case Switch(id) => switches := switches[id := switches[id].(ports := switches[id].ports + [port])];
      }
    }

    /** `append_link`, with the two new ports. */
    method AppendLink(a: NodeId, roleA: PortRole, b: NodeId, roleB: PortRole, kind: LinkKind)
      requires Contains(View(), a) && Contains(View(), b) && Shaped(View())
      modifies this`ports, this`links, this`gpuArcs, this`nicArcs, this`switchArcs
      ensures View() == Wire(old(View()), a, roleA, b, roleB, kind)
    {
      hide Shaped;
      ListLengths(View());
      var link := PhysicalLink(|links|, |ports|, |ports| + 1, kind, Up);
      ports := ports + [Port(|ports|, a, roleA, Up), Port(|ports| + 1, b, roleB, Up)];
      links := links + [link];
      AppendArc(a, Direction(link, AToB));
      AppendArc(b, Direction(link, BToA));
    }

    method AppendArc(node: NodeId, arc: DirectedLink)
      requires |gpuArcs| == |gpus| && |nicArcs| == |nics| && |switchArcs| == |switches| && Contains(View(), node)
      modifies this`gpuArcs, this`nicArcs, this`switchArcs
      ensures View() == OwnArc(old(View()), node, arc)
      ensures |gpuArcs| == |gpus| && |nicArcs| == |nics| && |switchArcs| == |switches|
    {
      match node {
        case Gpu(id) => gpuArcs := gpuArcs[id := gpuArcs[id] + [arc]];
        case Nic(id) => nicArcs := nicArcs[id := nicArcs[id] + [arc]];
        case Switch(id) => switchArcs := switchArcs[id := switchArcs[id] + [arc]];
      }
    }

    method ConnectFabric(a: NodeId, roleA: PortRole, b: NodeId, roleB: PortRole) returns (r: Result<nat>)
      requires Valid()
      modifies this
      ensures Valid() && (r.Ok? <==> CanApply(old(View()), Connect(a, roleA, b, roleB)))
              && (r.Throw? ==> r.error == InvalidArgument)
      ensures if r.Ok? then View() == Apply(old(View()), Connect(a, roleA, b, roleB)) && r.value == |old(links)|
              else View() == old(View())
    {
      hide Canonical, Shaped, OwnPort, Wire, DirectlyConnected;
      if !Contains(View(), a) || !Contains(View(), b) || a == b || a.Gpu? || b.Gpu? || roleA == PortRole.Local
         || roleB == PortRole.Local {
        return Throw(InvalidArgument);
      }
      var connected := exists i :: 0 <= i < |Arcs(View(), a)| && HasPort(View(), Arcs(View(), a)[i].destination)
                                   && View().ports[Arcs(View(), a)[i].destination].owner == b;
      ConnectedIs(View(), a, b);
      if connected {
        return Throw(InvalidArgument);
      }
      ApplyCanonical(View(), Connect(a, roleA, b, roleB));
      CanonicalShaped(View());
      var port, link := |ports|, |links|;
      PortShaped(View(), a, port);
      AppendOwnerPort(a, port);
      PortShaped(View(), b, port + 1);
      AppendOwnerPort(b, port + 1);
      AppendLink(a, roleA, b, roleB, FabricLink);
      return Ok(link);
    }

    method SetSwitchStateTo(id: nat, state: OperationalState) returns (done: bool)
      requires Valid()
      modifies this`switches, this`revision
      ensures Valid() && (View(), done) == SetSwitchState(old(View()), id, state)
    {
      hide Canonical;
      SwitchDowns(View(), id, state);
      if !(id < |switches| && switches[id].id == id) {
        return false;
      }
      if switches[id].state != state {
        if revision == U64_MAX {
          return false;
        }
        revision := revision + 1;
        switches := switches[id := switches[id].(state := state)];
      }
      return true;
    }

    method SetPortStateTo(id: nat, state: OperationalState) returns (done: bool)
      requires Valid()
      modifies this`ports, this`revision
      ensures Valid() && (View(), done) == SetPortState(old(View()), id, state)
    {
      hide Canonical;
      PortDowns(View(), id, state);
      if !(id < |ports| && ports[id].id == id) {
        return false;
      }
      if ports[id].state != state {
        if revision == U64_MAX {
          return false;
        }
        revision := revision + 1;
        ports := ports[id := ports[id].(state := state)];
      }
      return true;
    }

    method SetLinkStateTo(id: nat, state: OperationalState) returns (done: bool)
      requires Valid()
      modifies this`links, this`revision
      ensures Valid() && (View(), done) == SetLinkState(old(View()), id, state)
    {
      hide Canonical;
      LinkDowns(View(), id, state);
      if !(id < |links| && links[id].id == id) {
        return false;
      }
      if links[id].state != state {
        if revision == U64_MAX {
          return false;
        }
        revision := revision + 1;
        links := links[id := links[id].(state := state)];
      }
      return true;
    }
  }

  lemma NoMore(r: Rack)
    ensures r.gpus + [] == r.gpus && r.nics + [] == r.nics && r.leafSwitches + [] == r.leafSwitches
  {
  }

  lemma ListLengths(g: Graph)
    requires Shaped(g)
    ensures |g.gpuArcs| == |g.gpus| && |g.nicArcs| == |g.nics| && |g.switchArcs| == |g.switches|
  {
  }

  lemma ConnectedIs(g: Graph, a: NodeId, b: NodeId)
    ensures DirectlyConnected(g, a, b) <==>
            exists i :: 0 <= i < |Arcs(g, a)| && HasPort(g, Arcs(g, a)[i].destination)
                        && g.ports[Arcs(g, a)[i].destination].owner == b
  {
  }
}
