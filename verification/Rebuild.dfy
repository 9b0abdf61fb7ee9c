/**
 Replaying construction in the canonical order of `simulator/src/topology/import.cpp`: racks, NICs,
 switches, then links. Whatever the order of the original builder calls, the replay gives the same graph.
 */
module Rebuild {
  import opened Prelude
  import opened Events
  import opened Topology
  import opened Routes
  import opened Builders

  // Earlier kinds of operation commute with later ones

  lemma InRackMore(racks: seq<Rack>, more: Rack, r: nat, gpus: seq<nat>, nics: seq<nat>, leaves: seq<nat>)
    requires r < |racks|
    ensures InRack(racks + [more], r, gpus, nics, leaves) == InRack(racks, r, gpus, nics, leaves) + [more]
  {
  }

  /** Additions of different kinds of members to racks commute. */
  lemma InRackTwice(racks: seq<Rack>, r: nat, gpus: seq<nat>, nics: seq<nat>, leaves: seq<nat>,
                    r': nat, gpus': seq<nat>, nics': seq<nat>, leaves': seq<nat>)
    requires r < |racks| && r' < |racks|
    requires (gpus == [] || gpus' == []) && (nics == [] || nics' == []) && (leaves == [] || leaves' == [])
    ensures InRack(InRack(racks, r, gpus, nics, leaves), r', gpus', nics', leaves')
         == InRack(InRack(racks, r', gpus', nics', leaves'), r, gpus, nics, leaves)
  {
    var left := InRack(InRack(racks, r, gpus, nics, leaves), r', gpus', nics', leaves');
    var right := InRack(InRack(racks, r', gpus', nics', leaves'), r, gpus, nics, leaves);
    forall i | 0 <= i < |racks| ensures left[i] == right[i] {
    }
  }

  lemma NodesCommute(g: Graph, y: Op, x: Op)
    requires Shaped(g) && y.Rank() < 3 && x.Rank() < y.Rank() && OpOk(g, y) && OpOk(Apply(g, y), x)
    ensures OpOk(g, x) && OpOk(Apply(g, x), y) && Apply(Apply(g, x), y) == Apply(Apply(g, y), x)
  {
    var more := Rack(|g.racks|, [], [], []);
    match y {
      case NewNic(r) =>
        InRackMore(g.racks, more, r, [], [|g.nics|], []);
      case NewLeaf(r) =>
        if x.NewRack? {
          InRackMore(g.racks, more, r, [], [], [|g.switches|]);
        } else {
          InRackTwice(g.racks, x.rack, [], [|g.nics|], [], r, [], [], [|g.switches|]);
        }
      case NewSpine =>
    }
  }

  /** A new rack, NIC or switch, whenever it comes. */
  predicate IsNode(op: Op) {
    op.Rank() < 3
  }

  lemma PortCommutes(g: Graph, node: NodeId, port: nat, x: Op)
    requires Shaped(g) && IsNode(x) && OpOk(g, x) && Contains(g, node)
    ensures OpOk(OwnPort(g, node, port), x) && OwnPort(Apply(g, x), node, port) == Apply(OwnPort(g, node, port), x)
    ensures Contains(Apply(g, x), node)
  {
    var left, right := OwnPort(Apply(g, x), node, port), Apply(OwnPort(g, node, port), x);
    assert left.nics == right.nics && left.switches == right.switches;
  }

  lemma ArcCommutes(g: Graph, node: NodeId, arc: DirectedLink, x: Op)
    requires Shaped(g) && IsNode(x) && OpOk(g, x) && Contains(g, node)
    ensures OpOk(OwnArc(g, node, arc), x) && OwnArc(Apply(g, x), node, arc) == Apply(OwnArc(g, node, arc), x)
    ensures Contains(Apply(g, x), node)
  {
    var left, right := OwnArc(Apply(g, x), node, arc), Apply(OwnArc(g, node, arc), x);
    assert left.nicArcs == right.nicArcs && left.switchArcs == right.switchArcs && left.gpuArcs == right.gpuArcs;
  }

  lemma PlugCommutes(g: Graph, a: NodeId, roleA: PortRole, b: NodeId, roleB: PortRole, link: PhysicalLink, x: Op)
    requires IsNode(x) && OpOk(g, x)
    ensures OpOk(Plug(g, a, roleA, b, roleB, link), x)
    ensures Plug(Apply(g, x), a, roleA, b, roleB, link) == Apply(Plug(g, a, roleA, b, roleB, link), x)
    ensures |Apply(g, x).ports| == |g.ports| && |Apply(g, x).links| == |g.links|
  {
  }

  lemma WireCommutes(g: Graph, a: NodeId, roleA: PortRole, b: NodeId, roleB: PortRole, kind: LinkKind, x: Op)
    requires Shaped(g) && IsNode(x) && OpOk(g, x) && Contains(g, a) && Contains(g, b)
    ensures OpOk(Wire(g, a, roleA, b, roleB, kind), x)
    ensures Wire(Apply(g, x), a, roleA, b, roleB, kind) == Apply(Wire(g, a, roleA, b, roleB, kind), x)
  {
    hide Shaped, Plug, OwnArc, Apply, OpOk, Contains;
    var link := PhysicalLink(|g.links|, |g.ports|, |g.ports| + 1, kind, Up);
    PlugCommutes(g, a, roleA, b, roleB, link, x);
    PlugShaped(g, a, roleA, b, roleB, kind);
    var plugged := Plug(g, a, roleA, b, roleB, link);
    PlugContains(g, a, roleA, b, roleB, link, a);
    PlugContains(g, a, roleA, b, roleB, link, b);
    ArcCommutes(plugged, a, Direction(link, AToB), x);
    ArcShaped(plugged, a, Direction(link, AToB));
    ArcCommutes(OwnArc(plugged, a, Direction(link, AToB)), b, Direction(link, BToA), x);
  }

  lemma PlugContains(g: Graph, a: NodeId, roleA: PortRole, b: NodeId, roleB: PortRole, link: PhysicalLink, n: NodeId)
    ensures Contains(Plug(g, a, roleA, b, roleB, link), n) <==> Contains(g, n)
  {
  }

  /** What a new node leaves alone. */
  lemma NodeLeaves(g: Graph, x: Op, n: NodeId)
    requires Shaped(g) && IsNode(x) && OpOk(g, x) && Contains(g, n)
    ensures Contains(Apply(g, x), n) && Arcs(Apply(g, x), n) == Arcs(g, n) && Apply(g, x).ports == g.ports
  {
  }

  /** A link does not care whether nodes it does not touch are there already. */
  lemma ConnectCommutes(g: Graph, y: Op, x: Op)
    requires Shaped(g) && y.Connect? && IsNode(x) && OpOk(g, y) && OpOk(g, x)
    ensures OpOk(Apply(g, x), y) && OpOk(Apply(g, y), x) && Apply(Apply(g, x), y) == Apply(Apply(g, y), x)
  {
    ConnectStaysOk(g, y, x);
    FabricCommutes(g, y.a, y.roleA, y.b, y.roleB, x);
    hide Shaped, AddFabric, AddRack, AddNic, AddSwitch, Contains, DirectlyConnected;
  }

  lemma ConnectStaysOk(g: Graph, y: Op, x: Op)
    requires Shaped(g) && y.Connect? && IsNode(x) && OpOk(g, y) && OpOk(g, x)
    ensures OpOk(Apply(g, x), y)
  {
    hide Shaped, Apply, Contains;
    NodeLeaves(g, x, y.a);
    NodeLeaves(g, x, y.b);
  }

  lemma FabricCommutes(g: Graph, a: NodeId, roleA: PortRole, b: NodeId, roleB: PortRole, x: Op)
    requires Shaped(g) && IsNode(x) && OpOk(g, x) && Contains(g, a) && Contains(g, b)
    ensures OpOk(AddFabric(g, a, roleA, b, roleB), x)
    ensures AddFabric(Apply(g, x), a, roleA, b, roleB) == Apply(AddFabric(g, a, roleA, b, roleB), x)
  {
    hide Shaped, OwnPort, Wire, Apply, OpOk, Contains;
    var p := |g.ports|;
    PlugCommutes(g, a, roleA, b, roleB, PhysicalLink(0, 0, 0, FabricLink, Up), x);
    PortCommutes(g, a, p, x);
    PortShaped(g, a, p);
    PortCommutes(OwnPort(g, a, p), b, p + 1, x);
    PortShaped(OwnPort(g, a, p), b, p + 1);
    WireCommutes(OwnPort(OwnPort(g, a, p), b, p + 1), a, roleA, b, roleB, FabricLink, x);
  }

  lemma GpuCommutes(g: Graph, nic: nat, x: Op)
    requires Shaped(g) && IsNode(x) && OpOk(g, x) && nic < |g.nics|
    ensures nic < |Apply(g, x).nics| && Apply(g, x).nics[nic] == g.nics[nic] && g.nics[nic].rack < |g.racks|
    ensures |Apply(g, x).gpus| == |g.gpus| && g.nics[nic].rack < |Apply(g, x).racks|
    ensures OpOk(NewGpu(g, nic), x) && NewGpu(Apply(g, x), nic) == Apply(NewGpu(g, nic), x)
  {
    var rack := g.nics[nic].rack;
    match x {
      case NewRack =>
        InRackMore(g.racks, Rack(|g.racks|, [], [], []), rack, [|g.gpus|], [], []);
      case NewNic(r) =>
        InRackTwice(g.racks, r, [], [|g.nics|], [], rack, [|g.gpus|], [], []);
      case NewLeaf(r) =>
        InRackTwice(g.racks, r, [], [], [|g.switches|], rack, [|g.gpus|], [], []);
      case NewSpine =>
    }
    hide InRack;
    var left, right := NewGpu(Apply(g, x), nic), Apply(NewGpu(g, nic), x);
    assert left.nics == right.nics;
  }

  lemma AttachCommutes(g: Graph, y: Op, x: Op)
    requires Shaped(g) && y.Attach? && IsNode(x) && OpOk(g, y) && OpOk(g, x)
    ensures g.nics[y.nic].rack < |g.racks| && OpOk(Apply(g, x), y) && OpOk(Apply(g, y), x)
    ensures Apply(g, x).nics[y.nic].rack < |Apply(g, x).racks| && Apply(Apply(g, x), y) == Apply(Apply(g, y), x)
  {
    GpuCommutes(g, y.nic, x);
    GpuShaped(g, y.nic);
    hide Shaped, NewGpu, Wire, AddRack, AddNic, AddSwitch, Contains;
    WireCommutes(NewGpu(g, y.nic), Gpu(|g.gpus|), PortRole.Local, Nic(y.nic), PortRole.Local, LocalAttachment, x);
  }

  // Runs of builder calls

  predicate CanApply(g: Graph, op: Op) {
    OpOk(g, op) && (op.Attach? ==> g.nics[op.nic].rack < |g.racks|)
  }

  /** The graph after a sequence of builder calls, unless one of them is refused. */
  function Run(g: Graph, ops: seq<Op>): Option<Graph> {
    if |ops| == 0 then Some(g)
    else
      var h := Run(g, ops[..|ops| - 1]);
      if h.Some? && CanApply(h.value, ops[|ops| - 1]) then Some(Apply(h.value, ops[|ops| - 1])) else None
  }

  lemma {:induction false} RunBuilt(g: Graph, ops: seq<Op>)
    requires BuiltOk(g) && Run(g, ops).Some?
    ensures BuiltOk(Run(g, ops).value)
  {
    hide Apply, CanApply, BuiltOk;
    if |ops| > 0 {
      RunBuilt(g, ops[..|ops| - 1]);
      OneBuilt(Run(g, ops[..|ops| - 1]).value, ops[|ops| - 1]);
    }
  }

  lemma OneBuilt(g: Graph, op: Op)
    requires BuiltOk(g) && CanApply(g, op)
    ensures BuiltOk(Apply(g, op))
  {
    hide Apply, OpOk, BuiltOk;
    ApplyBuilt(g, op);
  }

  lemma {:induction false} RunSplit(g: Graph, a: seq<Op>, b: seq<Op>)
    ensures Run(g, a + b) == if Run(g, a).Some? then Run(Run(g, a).value, b) else None
  {
    hide Apply, CanApply;
    if |b| == 0 {
      assert a + b == a;
    } else {
      RunSplit(g, a, b[..|b| - 1]);
      assert (a + b)[..|a + b| - 1] == a + b[..|b| - 1];
    }
  }

  lemma RunOne(g: Graph, x: Op)
    requires CanApply(g, x)
    ensures Run(g, [x]) == Some(Apply(g, x))
  {
    hide Apply, CanApply;
    assert [x][..0] == [];
    assert Run(g, [x][..0]) == Some(g);
  }

  /** A call commutes with one of a later kind. */
  lemma Commutes(g: Graph, y: Op, x: Op)
    requires Shaped(g) && x.Rank() < y.Rank() && CanApply(g, y) && CanApply(Apply(g, y), x)
    ensures CanApply(g, x) && CanApply(Apply(g, x), y) && Apply(Apply(g, x), y) == Apply(Apply(g, y), x)
  {
    NodeBefore(g, y, x);
    if y.Connect? {
      ConnectCommutes(g, y, x);
    } else if y.Attach? {
      AttachCommutes(g, y, x);
    } else {
      NodesCommute(g, y, x);
    }
    hide Shaped, Apply, OpOk;
  }

  /** What a new node needs was there before a call of a later kind. */
  lemma NodeBefore(g: Graph, y: Op, x: Op)
    requires x.Rank() < y.Rank() && CanApply(g, y) && OpOk(Apply(g, y), x)
    ensures OpOk(g, x)
  {
  }

  /** A call may be made before any number of calls of later kinds instead of after them. */
  lemma {:induction false} MovesAcross(g: Graph, ys: seq<Op>, x: Op)
    requires BuiltOk(g) && Run(g, ys).Some? && CanApply(Run(g, ys).value, x)
    requires forall i :: 0 <= i < |ys| ==> x.Rank() < ys[i].Rank()
    ensures CanApply(g, x) && Run(Apply(g, x), ys) == Some(Apply(Run(g, ys).value, x))
  {
    hide Apply, CanApply, Shaped, AdjacencyOk, KindsOk;
    if |ys| > 0 {
      var zs, y := ys[..|ys| - 1], ys[|ys| - 1];
      var h := Run(g, zs).value;
      RunBuilt(g, zs);
      Commutes(h, y, x);
      MovesAcross(g, zs, x);
    }
  }

  // Reading the calls back from the tables

  function Racks(g: Graph): seq<Op> {
    seq(|g.racks|, _ => NewRack)
  }

  function Nics(g: Graph): seq<Op> {
    seq(|g.nics|, i requires 0 <= i < |g.nics| => NewNic(g.nics[i].rack))
  }

  function SwitchOp(s: NetworkSwitch): Op {
    if s.role == Leaf then NewLeaf(if s.rack.Some? then s.rack.value else U64_MAX) else NewSpine
  }

  function Switches(g: Graph): seq<Op> {
    seq(|g.switches|, i requires 0 <= i < |g.switches| => SwitchOp(g.switches[i]))
  }

  /** The call that made a link, as its ports tell. */
  function LinkOp(link: PhysicalLink, ports: seq<Port>): Op {
    if link.endpointA < |ports| && link.endpointB < |ports| then
      var a, b := ports[link.endpointA], ports[link.endpointB];
      if link.kind == LocalAttachment then Attach(b.owner.id) else Connect(a.owner, a.role, b.owner, b.role)
    else NewRack
  }

  function Links(g: Graph): seq<Op> {
    seq(|g.links|, i requires 0 <= i < |g.links| => LinkOp(g.links[i], g.ports))
  }

  /** The canonical construction of a graph. */
  function Replay(g: Graph): seq<Op> {
    Racks(g) + Nics(g) + Switches(g) + Links(g)
  }

  /** Each call shows up last among its kind, and nowhere else. */
  lemma ReadsBack(g: Graph, op: Op)
    requires Shaped(g) && CanApply(g, op)
    ensures var h := Apply(g, op);
            && Racks(h) == Racks(g) + (if op.Rank() == 0 then [op] else [])
            && Nics(h) == Nics(g) + (if op.Rank() == 1 then [op] else [])
            && Switches(h) == Switches(g) + (if op.Rank() == 2 then [op] else [])
            && Links(h) == Links(g) + (if op.Rank() == 3 then [op] else [])
  {
    if op.Connect? {
      ReadsFabric(g, op);
    } else if op.Attach? {
      ReadsGpu(g, op);
    } else {
      ReadsNode(g, op);
    }
  }

  lemma ReadsNode(g: Graph, op: Op)
    requires Shaped(g) && OpOk(g, op) && IsNode(op)
    ensures var h := Apply(g, op);
            && Racks(h) == Racks(g) + (if op.Rank() == 0 then [op] else [])
            && Nics(h) == Nics(g) + (if op.Rank() == 1 then [op] else [])
            && Switches(h) == Switches(g) + (if op.Rank() == 2 then [op] else [])
            && Links(h) == Links(g)
  {
  }

  lemma ReadsLink(g: Graph, a: NodeId, roleA: PortRole, b: NodeId, roleB: PortRole, kind: LinkKind)
    requires Shaped(g) && Contains(g, a) && Contains(g, b) && a != b
    ensures var h := Wire(g, a, roleA, b, roleB, kind);
            && Racks(h) == Racks(g) && Nics(h) == Nics(g) && Switches(h) == Switches(g)
            && Links(h) == Links(g) + [if kind == LocalAttachment then Attach(b.id) else Connect(a, roleA, b, roleB)]
  {
    WireArcs(g, a, roleA, b, roleB, kind, a);
  }

  lemma ReadsPort(g: Graph, node: NodeId, port: nat)
    ensures var h := OwnPort(g, node, port);
            Racks(h) == Racks(g) && Nics(h) == Nics(g) && Switches(h) == Switches(g) && Links(h) == Links(g)
            && |h.ports| == |g.ports|
  {
  }

  lemma ReadsFabric(g: Graph, op: Op)
    requires Shaped(g) && OpOk(g, op) && op.Connect?
    ensures var h := Apply(g, op);
            && Racks(h) == Racks(g) && Nics(h) == Nics(g) && Switches(h) == Switches(g) && Links(h) == Links(g) + [op]
  {
    hide Racks, Nics, Switches, Links, Shaped, OwnPort, Wire, Contains, DirectlyConnected;
    var p := |g.ports|;
    ReadsPort(g, op.a, p);
    PortShaped(g, op.a, p);
    ReadsPort(OwnPort(g, op.a, p), op.b, p + 1);
    PortShaped(OwnPort(g, op.a, p), op.b, p + 1);
    ReadsLink(OwnPort(OwnPort(g, op.a, p), op.b, p + 1), op.a, op.roleA, op.b, op.roleB, FabricLink);
  }

  lemma ReadsGpu(g: Graph, op: Op)
    requires Shaped(g) && CanApply(g, op) && op.Attach?
    ensures var h := Apply(g, op);
            && Racks(h) == Racks(g) && Nics(h) == Nics(g) && Switches(h) == Switches(g) && Links(h) == Links(g) + [op]
  {
    GpuShaped(g, op.nic);
    var h := NewGpu(g, op.nic);
    assert Racks(h) == Racks(g) && Nics(h) == Nics(g) && Switches(h) == Switches(g) && Links(h) == Links(g);
    hide Racks, Nics, Switches, Links, Shaped, NewGpu, Wire, Contains;
    ReadsLink(h, Gpu(|g.gpus|), PortRole.Local, Nic(op.nic), PortRole.Local, LocalAttachment);
  }

  /** Replaying a graph's canonical construction from scratch gives the graph. */
  ghost predicate Replays(g: Graph) {
    BuiltOk(g) && Run(Empty(), Replay(g)) == Some(g)
  }

  lemma EmptyReplays()
    ensures Replays(Empty())
  {
    EmptyBuilt();
    assert Replay(Empty()) == [];
  }

  lemma RanksSorted(g: Graph)
    ensures forall i :: 0 <= i < |Racks(g)| ==> Racks(g)[i].Rank() == 0
    ensures forall i :: 0 <= i < |Nics(g)| ==> Nics(g)[i].Rank() == 1
    ensures forall i :: 0 <= i < |Switches(g)| ==> Switches(g)[i].Rank() == 2
  {
  }

  lemma LinkRanks(g: Graph)
    requires Shaped(g)
    ensures forall i :: 0 <= i < |Links(g)| ==> Links(g)[i].Rank() == 3
  {
  }

  /** Whatever the order of the calls so far, one more call keeps the canonical construction exact. */
  lemma ApplyReplays(g: Graph, x: Op)
    requires Replays(g) && CanApply(g, x)
    ensures Replays(Apply(g, x))
  {
    hide Apply, OpOk, Racks, Nics, Switches, Links, Shaped, AdjacencyOk, KindsOk, Run;
    OneBuilt(g, x);
    ReadsBack(g, x);
    RanksSorted(g);
    LinkRanks(g);
    var r, n, s, l := Racks(g), Nics(g), Switches(g), Links(g);
    if x.Rank() == 0 {
      assert Replay(g) == r + (n + s + l) && Replay(Apply(g, x)) == (r + [x]) + (n + s + l);
      Inserted(g, r, n + s + l, x);
    } else if x.Rank() == 1 {
      assert Replay(g) == (r + n) + (s + l) && Replay(Apply(g, x)) == ((r + n) + [x]) + (s + l);
      Inserted(g, r + n, s + l, x);
    } else if x.Rank() == 2 {
      assert Replay(Apply(g, x)) == ((r + n + s) + [x]) + l;
      Inserted(g, r + n + s, l, x);
    } else {
      assert Replay(g) == (r + n + s + l) + [] && Replay(Apply(g, x)) == ((r + n + s + l) + [x]) + [];
      Inserted(g, r + n + s + l, [], x);
    }
  }

  lemma Inserted(g: Graph, before: seq<Op>, after: seq<Op>, x: Op)
    requires Run(Empty(), before + after) == Some(g) && CanApply(g, x)
    requires forall i :: 0 <= i < |after| ==> x.Rank() < after[i].Rank()
    ensures Run(Empty(), (before + [x]) + after) == Some(Apply(g, x))
  {
    hide Apply, CanApply, BuiltOk;
    EmptyBuilt();
    RunSplit(Empty(), before, after);
    RunBuilt(Empty(), before);
    var h := Run(Empty(), before).value;
    MovesAcross(h, after, x);
    RunOne(h, x);
    RunSplit(Empty(), before, [x]);
    RunSplit(Empty(), before + [x], after);
  }
}
