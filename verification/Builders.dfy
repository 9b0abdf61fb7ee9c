/**
 Building a topology graph: the builder calls of `simulator/src/topology/graph.cpp` as operations on the
 graph, and what any sequence of them establishes.
 */
module Builders {
  import opened Prelude
  import opened Events
  import opened Topology
  import opened Routes

  datatype Op =
    | NewRack
    | NewNic(rack: nat)
    | NewLeaf(rack: nat)
    | NewSpine
    | Attach(nic: nat)
    | Connect(a: NodeId, roleA: PortRole, b: NodeId, roleB: PortRole)
  {
    /** The order in which a document is replayed. */
    function Rank(): nat {
      match this
      case NewRack => 0
      case NewNic(_) => 1
      case NewLeaf(_) => 2
      case NewSpine => 2
      case Attach(_) => 3
      case Connect(_, _, _, _) => 3
    }
  }

  /** Some link already joins the two nodes. */
  predicate DirectlyConnected(g: Graph, a: NodeId, b: NodeId) {
    exists i :: 0 <= i < |Arcs(g, a)| && HasPort(g, Arcs(g, a)[i].destination)
                && g.ports[Arcs(g, a)[i].destination].owner == b
  }

  /** What a builder accepts. */
  predicate OpOk(g: Graph, op: Op) {
    match op
    case NewRack => true
    case NewNic(rack) => rack < |g.racks|
    case NewLeaf(rack) => rack < |g.racks|
    case NewSpine => true
    case Attach(nic) => nic < |g.nics|
    case Connect(a, roleA, b, roleB) =>
      && Contains(g, a) && Contains(g, b) && a != b && !a.Gpu? && !b.Gpu?
      && roleA != PortRole.Local && roleB != PortRole.Local && !DirectlyConnected(g, a, b)
  }

  /** Tables are dense, lists are as long as their tables, and each link has the next two ports. */
  ghost predicate Shaped(g: Graph) {
    && |g.gpuArcs| == |g.gpus| && |g.nicArcs| == |g.nics| && |g.switchArcs| == |g.switches|
    && |g.ports| == 2 * |g.links|
    && (forall i :: 0 <= i < |g.racks| ==> g.racks[i].id == i)
    && (forall i :: 0 <= i < |g.gpus| ==> g.gpus[i].id == i)
    && (forall i :: 0 <= i < |g.nics| ==> g.nics[i].id == i && g.nics[i].rack < |g.racks|)
    && (forall i :: 0 <= i < |g.switches| ==> g.switches[i].id == i)
    && (forall i :: 0 <= i < |g.ports| ==> g.ports[i].id == i && Contains(g, g.ports[i].owner))
    && (forall i :: 0 <= i < |g.links| ==> g.links[i].id == i && g.links[i].endpointA == 2 * i
                                           && g.links[i].endpointB == 2 * i + 1)
  }

  // The operations

  /** A rack with one more member. */
  function InRack(racks: seq<Rack>, rack: nat, gpus: seq<nat>, nics: seq<nat>, leaves: seq<nat>): seq<Rack>
    requires rack < |racks|
  {
    var r := racks[rack];
    racks[rack := Rack(r.id, r.gpus + gpus, r.nics + nics, r.leafSwitches + leaves)]
  }

  function AddRack(g: Graph): Graph {
    g.(racks := g.racks + [Rack(|g.racks|, [], [], [])])
  }

  function AddNic(g: Graph, rack: nat): Graph
    requires rack < |g.racks|
  {
    g.(nics := g.nics + [NicCard(|g.nics|, rack, [], [])], nicArcs := g.nicArcs + [[]],
       racks := InRack(g.racks, rack, [], [|g.nics|], []))
  }

  function AddSwitch(g: Graph, rack: Option<nat>, role: SwitchRole): Graph
    requires rack.Some? ==> rack.value < |g.racks|
  {
    g.(switches := g.switches + [NetworkSwitch(|g.switches|, rack, role, [], Up)], switchArcs := g.switchArcs + [[]],
       racks := if rack.Some? then InRack(g.racks, rack.value, [], [], [|g.switches|]) else g.racks)
  }

  /** Appends a port to a NIC or switch. */
  function OwnPort(g: Graph, node: NodeId, port: nat): Graph {
    match node
    case Nic(id) =>
      if id < |g.nics| then g.(nics := g.nics[id := g.nics[id].(ports := g.nics[id].ports + [port])]) else g
    case Switch(id) =>
      if id < |g.switches| then
        g.(switches := g.switches[id := g.switches[id].(ports := g.switches[id].ports + [port])]) else g
    case Gpu(_) => g
  }

  /** Appends a directed link to a node's adjacency list. */
  function OwnArc(g: Graph, node: NodeId, arc: DirectedLink): Graph {
    match node
    case Gpu(id) => if id < |g.gpuArcs| then g.(gpuArcs := g.gpuArcs[id := g.gpuArcs[id] + [arc]]) else g
    case Nic(id) => if id < |g.nicArcs| then g.(nicArcs := g.nicArcs[id := g.nicArcs[id] + [arc]]) else g
    case Switch(id) => if id < |g.switchArcs| then g.(switchArcs := g.switchArcs[id := g.switchArcs[id] + [arc]]) else g
  }

  /** Two new ports, the link between them and its two directions. */
  function Wire(g: Graph, a: NodeId, roleA: PortRole, b: NodeId, roleB: PortRole, kind: LinkKind): Graph {
    var link := PhysicalLink(|g.links|, |g.ports|, |g.ports| + 1, kind, Up);
    OwnArc(OwnArc(Plug(g, a, roleA, b, roleB, link), a, Direction(link, AToB)), b, Direction(link, BToA))
  }

  function Plug(g: Graph, a: NodeId, roleA: PortRole, b: NodeId, roleB: PortRole, link: PhysicalLink): Graph {
    var p := |g.ports|;
    g.(ports := g.ports + [Port(p, a, roleA, Up), Port(p + 1, b, roleB, Up)], links := g.links + [link])
  }

  /** A GPU with its list, and its place with its NIC and in its rack. */
  function NewGpu(g: Graph, nic: nat): Graph
    requires nic < |g.nics| && g.nics[nic].rack < |g.racks|
  {
    var card, gpu := g.nics[nic], |g.gpus|;
    g.(gpus := g.gpus + [GpuWorker(gpu, card.rack, nic, |g.ports|)], gpuArcs := g.gpuArcs + [[]],
       nics := g.nics[nic := card.(attachedGpus := card.attachedGpus + [gpu], ports := card.ports + [|g.ports| + 1])],
       racks := InRack(g.racks, card.rack, [gpu], [], []))
  }

  function AddGpu(g: Graph, nic: nat): Graph
    requires nic < |g.nics| && g.nics[nic].rack < |g.racks|
  {
    Wire(NewGpu(g, nic), Gpu(|g.gpus|), PortRole.Local, Nic(nic), PortRole.Local, LocalAttachment)
  }

  function AddFabric(g: Graph, a: NodeId, roleA: PortRole, b: NodeId, roleB: PortRole): Graph {
    var p := |g.ports|;
    Wire(OwnPort(OwnPort(g, a, p), b, p + 1), a, roleA, b, roleB, FabricLink)
  }

  function Apply(g: Graph, op: Op): Graph
    requires OpOk(g, op) && (op.Attach? ==> g.nics[op.nic].rack < |g.racks|)
  {
    match op
    case NewRack => AddRack(g)
    case NewNic(rack) => AddNic(g, rack)
    case NewLeaf(rack) => AddSwitch(g, Some(rack), Leaf)
    case NewSpine => AddSwitch(g, None, Spine)
    case Attach(nic) => AddGpu(g, nic)
    case Connect(a, roleA, b, roleB) => AddFabric(g, a, roleA, b, roleB)
  }

  lemma ArcShaped(g: Graph, node: NodeId, arc: DirectedLink)
    requires Shaped(g)
    ensures Shaped(OwnArc(g, node, arc)) && forall n :: Contains(g, n) ==> Contains(OwnArc(g, node, arc), n)
  {
  }

  lemma PortShaped(g: Graph, node: NodeId, port: nat)
    requires Shaped(g)
    ensures Shaped(OwnPort(g, node, port)) && forall n :: Contains(g, n) ==> Contains(OwnPort(g, node, port), n)
    ensures |OwnPort(g, node, port).ports| == |g.ports|
  {
  }

  lemma PlugShaped(g: Graph, a: NodeId, roleA: PortRole, b: NodeId, roleB: PortRole, kind: LinkKind)
    requires Shaped(g) && Contains(g, a) && Contains(g, b)
    ensures Shaped(Plug(g, a, roleA, b, roleB, PhysicalLink(|g.links|, |g.ports|, |g.ports| + 1, kind, Up)))
  {
    var h := Plug(g, a, roleA, b, roleB, PhysicalLink(|g.links|, |g.ports|, |g.ports| + 1, kind, Up));
    assert forall n :: Contains(g, n) ==> Contains(h, n);
    hide Contains;
  }

  lemma WireShaped(g: Graph, a: NodeId, roleA: PortRole, b: NodeId, roleB: PortRole, kind: LinkKind)
    requires Shaped(g) && Contains(g, a) && Contains(g, b)
    ensures Shaped(Wire(g, a, roleA, b, roleB, kind))
  {
    hide Shaped, OwnArc, Plug, Contains;
    var link := PhysicalLink(|g.links|, |g.ports|, |g.ports| + 1, kind, Up);
    PlugShaped(g, a, roleA, b, roleB, kind);
    var h := Plug(g, a, roleA, b, roleB, link);
    ArcShaped(h, a, Direction(link, AToB));
    ArcShaped(OwnArc(h, a, Direction(link, AToB)), b, Direction(link, BToA));
  }

  lemma GpuShaped(g: Graph, nic: nat)
    requires Shaped(g) && nic < |g.nics|
    ensures Shaped(NewGpu(g, nic)) && Contains(NewGpu(g, nic), Gpu(|g.gpus|)) && Contains(NewGpu(g, nic), Nic(nic))
  {
    var h := NewGpu(g, nic);
    assert forall n :: Contains(g, n) ==> Contains(h, n);
    assert Contains(h, Gpu(|g.gpus|)) && Contains(h, Nic(nic));
    hide Contains;
  }

  lemma TableShaped(g: Graph, op: Op)
    requires Shaped(g) && OpOk(g, op) && op.Rank() < 3
    ensures Shaped(Apply(g, op))
  {
    assert forall n :: Contains(g, n) ==> Contains(Apply(g, op), n);
    hide Contains;
  }

  lemma AttachShaped(g: Graph, nic: nat)
    requires Shaped(g) && nic < |g.nics|
    ensures g.nics[nic].rack < |g.racks| && Shaped(AddGpu(g, nic))
  {
    GpuShaped(g, nic);
    hide Wire, NewGpu, Contains;
    WireShaped(NewGpu(g, nic), Gpu(|g.gpus|), PortRole.Local, Nic(nic), PortRole.Local, LocalAttachment);
  }

  lemma FabricShaped(g: Graph, a: NodeId, roleA: PortRole, b: NodeId, roleB: PortRole)
    requires Shaped(g) && Contains(g, a) && Contains(g, b)
    ensures Shaped(AddFabric(g, a, roleA, b, roleB))
  {
    hide Wire, OwnPort, Shaped, Contains;
    var p := |g.ports|;
    PortShaped(g, a, p);
    PortShaped(OwnPort(g, a, p), b, p + 1);
    WireShaped(OwnPort(OwnPort(g, a, p), b, p + 1), a, roleA, b, roleB, FabricLink);
  }

  // What path enumeration and the path counter rely on

  lemma ShapedKnown(g: Graph, x: DirectedLinkId)
    requires Shaped(g)
    ensures Known(g, x) <==> x.link < |g.links|
    ensures Known(g, x) ==> Contains(g, Tail(g, x)) && Contains(g, Head(g, x))
    ensures Known(g, x) ==> Tail(g, x) == g.ports[if x.direction == AToB then 2 * x.link else 2 * x.link + 1].owner
    ensures Known(g, x) ==> Head(g, x) == g.ports[if x.direction == AToB then 2 * x.link + 1 else 2 * x.link].owner
  {
  }

  /** Two graphs with the same links, ports and lists, the second with more nodes, which have no links yet. */
  ghost predicate MoreNodes(g: Graph, h: Graph) {
    && h.ports == g.ports && h.links == g.links
    && (forall n :: Contains(g, n) ==> Contains(h, n) && Arcs(h, n) == Arcs(g, n))
    && (forall n :: Contains(h, n) && !Contains(g, n) ==> Arcs(h, n) == [])
  }

  lemma MoreNodesLists(g: Graph, h: Graph)
    requires Shaped(g) && Shaped(h) && MoreNodes(g, h) && AdjacencyOk(g) && KindsOk(g)
    ensures AdjacencyOk(h) && KindsOk(h)
  {
    forall x ensures (Known(g, x) <==> Known(h, x)) && (Known(g, x) ==> Contains(g, Tail(g, x))) {
      ShapedKnown(g, x);
    }
    forall x | Known(g, x) && Known(h, x)
      ensures Tail(g, x) == Tail(h, x) && Head(g, x) == Head(h, x) && ArcOf(g, x) == ArcOf(h, x)
    {
    }
    hide Shaped, Known, Tail, Head, Contains;
    forall n | Contains(h, n) ensures ListsArcs(h, n) {
      if Contains(g, n) {
        assert ListsArcs(g, n);
        forall x | Known(h, x) && Tail(h, x) == n ensures Leaves(h, n, x) {
          assert Leaves(g, n, x);
        }
      }
    }
  }

  lemma TableMoreNodes(g: Graph, op: Op)
    requires Shaped(g) && OpOk(g, op) && op.Rank() < 3
    ensures MoreNodes(g, Apply(g, op))
  {
  }

  lemma GpuMoreNodes(g: Graph, nic: nat)
    requires Shaped(g) && nic < |g.nics|
    ensures MoreNodes(g, NewGpu(g, nic)) && Arcs(NewGpu(g, nic), Gpu(|g.gpus|)) == []
  {
  }

  lemma PortMoreNodes(g: Graph, node: NodeId, port: nat)
    requires Shaped(g)
    ensures MoreNodes(g, OwnPort(g, node, port))
  {
  }

  /** The two nodes gain one directed link each, all others none. */
  lemma WireArcs(g: Graph, a: NodeId, roleA: PortRole, b: NodeId, roleB: PortRole, kind: LinkKind, n: NodeId)
    requires Shaped(g) && Contains(g, a) && Contains(g, b) && a != b
    ensures var link := PhysicalLink(|g.links|, |g.ports|, |g.ports| + 1, kind, Up);
            var h := Wire(g, a, roleA, b, roleB, kind);
            && (Contains(h, n) <==> Contains(g, n))
            && (Contains(g, n) ==>
                  Arcs(h, n) == Arcs(g, n) + (if n == a then [Direction(link, AToB)]
                                              else if n == b then [Direction(link, BToA)] else []))
            && h.ports == g.ports + [Port(|g.ports|, a, roleA, Up), Port(|g.ports| + 1, b, roleB, Up)]
            && h.links == g.links + [link]
  {
  }

  /** Links that were known keep their ends; the new link has the two nodes as its ends. */
  lemma WireEnds(g: Graph, a: NodeId, roleA: PortRole, b: NodeId, roleB: PortRole, kind: LinkKind, x: DirectedLinkId)
    requires Shaped(g) && Contains(g, a) && Contains(g, b) && a != b
    ensures var h := Wire(g, a, roleA, b, roleB, kind);
            && (Known(h, x) <==> Known(g, x) || x.link == |g.links|)
            && (Known(g, x) ==> Known(h, x) && Tail(h, x) == Tail(g, x) && Head(h, x) == Head(g, x)
                                && ArcOf(h, x) == ArcOf(g, x)
                                && h.links[x.link].kind == g.links[x.link].kind && x.link < |g.links|)
            && (x.link == |g.links| ==>
                  && Known(h, x) && h.links[x.link].kind == kind
                  && ArcOf(h, x) == Direction(PhysicalLink(|g.links|, |g.ports|, |g.ports| + 1, kind, Up), x.direction)
                  && Tail(h, x) == (if x.direction == AToB then a else b)
                  && Head(h, x) == (if x.direction == AToB then b else a))
  {
    WireArcs(g, a, roleA, b, roleB, kind, a);
    hide Wire;
  }

  lemma WireLists(g: Graph, a: NodeId, roleA: PortRole, b: NodeId, roleB: PortRole, kind: LinkKind, n: NodeId)
    requires Shaped(g) && Contains(g, a) && Contains(g, b) && a != b && Contains(g, n) && ListsArcs(g, n)
    ensures ListsArcs(Wire(g, a, roleA, b, roleB, kind), n)
  {
    hide Shaped, Wire, HasPort, Tail, Head, Contains;
    var h := Wire(g, a, roleA, b, roleB, kind);
    WireArcs(g, a, roleA, b, roleB, kind, n);
    AllWired(g, a, roleA, b, roleB, kind);
    forall x | Known(h, x) && Tail(h, x) == n ensures Leaves(h, n, x) {
      assert WiredEnds(g, h, a, b, kind, x);
      if Known(g, x) {
        assert Leaves(g, n, x);
        var i :| 0 <= i < |Arcs(g, n)| && Arcs(g, n)[i].id == x;
        assert Arcs(h, n)[i].id == x;
      } else {
        assert Arcs(h, n)[|Arcs(g, n)|].id == x;
      }
    }
    forall i | 0 <= i < |Arcs(h, n)|
      ensures var arc := Arcs(h, n)[i]; Known(h, arc.id) && arc == ArcOf(h, arc.id) && Tail(h, arc.id) == n
    {
      assert WiredEnds(g, h, a, b, kind, Arcs(h, n)[i].id);
    }
    forall i, j | 0 <= i < j < |Arcs(h, n)| ensures Arcs(h, n)[i].id != Arcs(h, n)[j].id {
      if j == |Arcs(g, n)| {
        assert WiredEnds(g, h, a, b, kind, Arcs(g, n)[i].id);
      }
    }
  }

  /** What `WireEnds` says, for all directed links at once. */
  ghost predicate WiredEnds(g: Graph, h: Graph, a: NodeId, b: NodeId, kind: LinkKind, x: DirectedLinkId) {
    && (Known(h, x) <==> Known(g, x) || x.link == |g.links|)
    && (Known(g, x) ==> Known(h, x) && Tail(h, x) == Tail(g, x) && Head(h, x) == Head(g, x)
                        && ArcOf(h, x) == ArcOf(g, x)
                        && h.links[x.link].kind == g.links[x.link].kind && x.link < |g.links|)
    && (x.link == |g.links| ==>
          && Known(h, x) && h.links[x.link].kind == kind
          && ArcOf(h, x) == Direction(PhysicalLink(|g.links|, |g.ports|, |g.ports| + 1, kind, Up), x.direction)
          && Tail(h, x) == (if x.direction == AToB then a else b)
          && Head(h, x) == (if x.direction == AToB then b else a))
  }

  lemma AllWired(g: Graph, a: NodeId, roleA: PortRole, b: NodeId, roleB: PortRole, kind: LinkKind)
    requires Shaped(g) && Contains(g, a) && Contains(g, b) && a != b
    ensures forall x :: WiredEnds(g, Wire(g, a, roleA, b, roleB, kind), a, b, kind, x)
  {
    hide Shaped, Wire, Known, Tail, Head, Contains;
    forall x ensures WiredEnds(g, Wire(g, a, roleA, b, roleB, kind), a, b, kind, x) {
      WireEnds(g, a, roleA, b, roleB, kind, x);
    }
  }

  lemma NoArcsYet(g: Graph, a: NodeId)
    requires AdjacencyOk(g) && Contains(g, a) && Arcs(g, a) == []
    ensures forall x :: Known(g, x) ==> Tail(g, x) != a
  {
    assert ListsArcs(g, a);
    hide Known, Tail;
    forall x | Known(g, x) ensures Tail(g, x) != a {
      assert !Leaves(g, a, x);
    }
  }

  lemma WireAdjacency(g: Graph, a: NodeId, roleA: PortRole, b: NodeId, roleB: PortRole, kind: LinkKind)
    requires Shaped(g) && Contains(g, a) && Contains(g, b) && a != b && AdjacencyOk(g)
    ensures AdjacencyOk(Wire(g, a, roleA, b, roleB, kind))
  {
    var h := Wire(g, a, roleA, b, roleB, kind);
    forall n | Contains(h, n) ensures ListsArcs(h, n) {
      WireArcs(g, a, roleA, b, roleB, kind, n);
      hide Wire, ListsArcs, Contains;
      WireLists(g, a, roleA, b, roleB, kind, n);
    }
    hide ListsArcs, Wire;
  }

  /** A new link keeps the kinds: a fabric link between two nodes that are not GPUs, or the first link of a GPU. */
  lemma WireKinds(g: Graph, a: NodeId, roleA: PortRole, b: NodeId, roleB: PortRole, kind: LinkKind)
    requires Shaped(g) && Contains(g, a) && Contains(g, b) && a != b && AdjacencyOk(g) && KindsOk(g)
    requires !b.Gpu? && (kind == FabricLink ==> !a.Gpu?) && (kind == LocalAttachment ==> a.Gpu? && Arcs(g, a) == [])
    ensures KindsOk(Wire(g, a, roleA, b, roleB, kind))
  {
    hide Shaped, Wire, AdjacencyOk, HasPort, Tail, Head, Contains, Arcs;
    var h := Wire(g, a, roleA, b, roleB, kind);
    AllWired(g, a, roleA, b, roleB, kind);
    if kind == LocalAttachment {
      NoArcsYet(g, a);
    }
    forall x | Known(h, x)
      ensures h.links[x.link].kind == FabricLink ==> !Tail(h, x).Gpu? && !Head(h, x).Gpu?
      ensures h.links[x.link].kind == LocalAttachment ==> Tail(h, x).Gpu? || Head(h, x).Gpu?
    {
      assert WiredEnds(g, h, a, b, kind, x);
    }
    forall x, y | Known(h, x) && Known(h, y) && Tail(h, x).Gpu? && Tail(h, x) == Tail(h, y) ensures x == y {
      assert WiredEnds(g, h, a, b, kind, x) && WiredEnds(g, h, a, b, kind, y);
    }
  }

  /** The structure every graph has that was built by builder calls. */
  ghost predicate BuiltOk(g: Graph) {
    Shaped(g) && AdjacencyOk(g) && KindsOk(g)
  }

  lemma EmptyBuilt()
    ensures BuiltOk(Empty())
  {
  }

  lemma AttachBuilt(g: Graph, nic: nat)
    requires BuiltOk(g) && nic < |g.nics|
    ensures g.nics[nic].rack < |g.racks| && BuiltOk(AddGpu(g, nic))
  {
    AttachShaped(g, nic);
    GpuShaped(g, nic);
    GpuMoreNodes(g, nic);
    MoreNodesLists(g, NewGpu(g, nic));
    hide Shaped, AdjacencyOk, KindsOk, NewGpu, Wire, Contains, Arcs;
    var h := NewGpu(g, nic);
    WireAdjacency(h, Gpu(|g.gpus|), PortRole.Local, Nic(nic), PortRole.Local, LocalAttachment);
    WireKinds(h, Gpu(|g.gpus|), PortRole.Local, Nic(nic), PortRole.Local, LocalAttachment);
  }

  lemma FabricBuilt(g: Graph, a: NodeId, roleA: PortRole, b: NodeId, roleB: PortRole)
    requires BuiltOk(g) && Contains(g, a) && Contains(g, b) && a != b && !a.Gpu? && !b.Gpu?
    ensures BuiltOk(AddFabric(g, a, roleA, b, roleB))
  {
    hide Shaped, AdjacencyOk, KindsOk, OwnPort, Wire, Contains, Arcs;
    var p := |g.ports|;
    FabricShaped(g, a, roleA, b, roleB);
    PortShaped(g, a, p);
    PortMoreNodes(g, a, p);
    MoreNodesLists(g, OwnPort(g, a, p));
    var h := OwnPort(g, a, p);
    PortShaped(h, b, p + 1);
    PortMoreNodes(h, b, p + 1);
    MoreNodesLists(h, OwnPort(h, b, p + 1));
    WireAdjacency(OwnPort(h, b, p + 1), a, roleA, b, roleB, FabricLink);
    WireKinds(OwnPort(h, b, p + 1), a, roleA, b, roleB, FabricLink);
  }

  /** Every builder call keeps the structure. */
  lemma ApplyBuilt(g: Graph, op: Op)
    requires BuiltOk(g) && OpOk(g, op)
    ensures op.Attach? ==> g.nics[op.nic].rack < |g.racks|
    ensures BuiltOk(Apply(g, op))
  {
    hide Shaped, AdjacencyOk, KindsOk, AddGpu, AddFabric, AddRack, AddNic, AddSwitch, Contains, DirectlyConnected,
         MoreNodes;
    match op {
      case Attach(nic) => AttachBuilt(g, nic);
      case Connect(a, roleA, b, roleB) => FabricBuilt(g, a, roleA, b, roleB);
      case _ =>
        TableShaped(g, op);
        TableMoreNodes(g, op);
        MoreNodesLists(g, Apply(g, op));
    }
  }
}
