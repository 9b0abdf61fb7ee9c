/**
 Operational paths through the topology graph, as sequences of directed links. This is what path
 enumeration, the path cache and the path counter are specified by.
 */
module Routes {
  import opened Prelude
  import opened Events
  import opened Topology

  type Path = seq<DirectedLinkId>

  function Arcs(g: Graph, node: NodeId): seq<DirectedLink> {
    match node
    case Gpu(id) => if id < |g.gpuArcs| then g.gpuArcs[id] else []
    case Nic(id) => if id < |g.nicArcs| then g.nicArcs[id] else []
    case Switch(id) => if id < |g.switchArcs| then g.switchArcs[id] else []
  }

  /** The directed link exists and so do its ports. */
  predicate Known(g: Graph, a: DirectedLinkId) {
    HasLink(g, a.link) && HasPort(g, ArcOf(g, a).source) && HasPort(g, ArcOf(g, a).destination)
  }

  function Tail(g: Graph, a: DirectedLinkId): NodeId
    requires Known(g, a)
  {
    g.ports[ArcOf(g, a).source].owner
  }

  function Head(g: Graph, a: DirectedLinkId): NodeId
    requires Known(g, a)
  {
    g.ports[ArcOf(g, a).destination].owner
  }

  /** Adjacency lists hold exactly the directed links that leave a node, each once. */
  ghost predicate AdjacencyOk(g: Graph) {
    forall n :: Contains(g, n) ==> ListsArcs(g, n)
  }

  ghost predicate ListsArcs(g: Graph, n: NodeId) {
    && (forall i :: 0 <= i < |Arcs(g, n)| ==>
          var arc := Arcs(g, n)[i]; Known(g, arc.id) && arc == ArcOf(g, arc.id) && Tail(g, arc.id) == n)
    && (forall i, j :: 0 <= i < j < |Arcs(g, n)| ==> Arcs(g, n)[i].id != Arcs(g, n)[j].id)
    && (forall a :: Known(g, a) && Tail(g, a) == n ==> Leaves(g, n, a))
  }

  ghost predicate Leaves(g: Graph, n: NodeId, a: DirectedLinkId) {
    exists i :: 0 <= i < |Arcs(g, n)| && Arcs(g, n)[i].id == a
  }

  /** Fabric links end at NICs and switches; any other link is the one link of a GPU. */
  ghost predicate KindsOk(g: Graph) {
    && (forall a :: Known(g, a) && g.links[a.link].kind == LocalAttachment ==> Tail(g, a).Gpu? || Head(g, a).Gpu?)
    && (forall a :: Known(g, a) && g.links[a.link].kind == FabricLink ==> !Tail(g, a).Gpu? && !Head(g, a).Gpu?)
    && (forall a, b :: Known(g, a) && Known(g, b) && Tail(g, a).Gpu? && Tail(g, a) == Tail(g, b) ==> a == b)
  }

  /** The directed link can carry traffic, over the fabric only or over any link. */
  predicate Usable(g: Graph, fabric: bool, a: DirectedLinkId) {
    Known(g, a) && (fabric ==> g.links[a.link].kind == FabricLink) && Operational(g, ArcOf(g, a))
  }

  function Reverse(a: DirectedLinkId): DirectedLinkId {
    a.(direction := if a.direction == AToB then BToA else AToB)
  }

  /** What goes one way goes the other way too. */
  lemma ReverseUsable(g: Graph, fabric: bool, a: DirectedLinkId)
    requires Usable(g, fabric, a)
    ensures Usable(g, fabric, Reverse(a)) && Tail(g, Reverse(a)) == Head(g, a) && Head(g, Reverse(a)) == Tail(g, a)
  {
  }

  lemma UsableEnds(g: Graph, fabric: bool, a: DirectedLinkId)
    requires Usable(g, fabric, a)
    ensures Known(g, a)
    ensures Contains(g, Tail(g, a)) && Contains(g, Head(g, a)) && NodeUp(g, Tail(g, a)) && NodeUp(g, Head(g, a))
  {
  }

  // Paths

  ghost predicate IsPath(g: Graph, fabric: bool, s: NodeId, p: Path, d: NodeId)
    decreases |p|
  {
    if |p| == 0 then s == d
    else Usable(g, fabric, p[0]) && Tail(g, p[0]) == s && IsPath(g, fabric, Head(g, p[0]), p[1..], d)
  }

  ghost predicate Shortest(g: Graph, fabric: bool, s: NodeId, p: Path, d: NodeId) {
    IsPath(g, fabric, s, p, d) && forall q :: IsPath(g, fabric, s, q, d) ==> |p| <= |q|
  }

  lemma {:induction false} Concatenate(g: Graph, fabric: bool, s: NodeId, p: Path, m: NodeId, q: Path, d: NodeId)
    requires IsPath(g, fabric, s, p, m) && IsPath(g, fabric, m, q, d)
    ensures IsPath(g, fabric, s, p + q, d)
    decreases |p|
  {
    if |p| == 0 {
      assert p + q == q;
    } else {
      Concatenate(g, fabric, Head(g, p[0]), p[1..], m, q, d);
      assert (p + q)[1..] == p[1..] + q;
    }
  }

  /** A path by its last link. */
  lemma {:induction false} LastLink(g: Graph, fabric: bool, s: NodeId, p: Path, d: NodeId)
    requires |p| > 0
    ensures IsPath(g, fabric, s, p, d) <==>
            (Usable(g, fabric, p[|p| - 1]) && Head(g, p[|p| - 1]) == d
             && IsPath(g, fabric, s, p[..|p| - 1], Tail(g, p[|p| - 1])))
    decreases |p|
  {
    var last := |p| - 1;
    if last == 0 {
      assert p[1..] == [] && p[..0] == [];
    } else if Usable(g, fabric, p[0]) {
      LastLink(g, fabric, Head(g, p[0]), p[1..], d);
      assert p[1..][..last - 1] == p[..last][1..];
    }
  }

  lemma {:induction false} FabricIsAny(g: Graph, s: NodeId, p: Path, d: NodeId)
    requires IsPath(g, true, s, p, d)
    ensures IsPath(g, false, s, p, d)
    decreases |p|
  {
    if |p| > 0 {
      FabricIsAny(g, Head(g, p[0]), p[1..], d);
    }
  }

  /** The node a path has reached after k links. */
  ghost function NodeAt(g: Graph, s: NodeId, p: Path, k: nat): NodeId
    requires k <= |p| && forall i :: 0 <= i < |p| ==> Known(g, p[i])
  {
    if k == 0 then s else Head(g, p[k - 1])
  }

  lemma {:induction false} PathKnown(g: Graph, fabric: bool, s: NodeId, p: Path, d: NodeId)
    requires IsPath(g, fabric, s, p, d)
    ensures forall i :: 0 <= i < |p| ==> Usable(g, fabric, p[i])
    decreases |p|
  {
    if |p| > 0 {
      PathKnown(g, fabric, Head(g, p[0]), p[1..], d);
      assert forall i :: 0 < i < |p| ==> p[i] == p[1..][i - 1];
    }
  }

  /** A path splits at every node it passes. */
  lemma {:induction false} SplitPath(g: Graph, fabric: bool, s: NodeId, p: Path, d: NodeId, k: nat)
    requires IsPath(g, fabric, s, p, d) && k <= |p|
    ensures (forall i :: 0 <= i < |p| ==> Known(g, p[i]))
    ensures IsPath(g, fabric, s, p[..k], NodeAt(g, s, p, k)) && IsPath(g, fabric, NodeAt(g, s, p, k), p[k..], d)
    decreases |p|
  {
    hide Operational, HasPort, HasLink, Tail, Head;
    PathKnown(g, fabric, s, p, d);
    if k == 0 {
      assert p[0..] == p;
    } else {
      SplitPath(g, fabric, Head(g, p[0]), p[1..], d, k - 1);
      assert p[1..][..k - 1] == p[..k][1..] && p[1..][k - 1..] == p[k..];
    }
  }

  /** A shortest path visits no node twice. */
  lemma ShortestIsSimple(g: Graph, fabric: bool, s: NodeId, p: Path, d: NodeId, i: nat, j: nat)
    requires Shortest(g, fabric, s, p, d) && i < j <= |p|
    ensures (forall k :: 0 <= k < |p| ==> Known(g, p[k]))
    ensures NodeAt(g, s, p, i) != NodeAt(g, s, p, j)
  {
    hide IsPath, Known, Tail, Head;
    SplitPath(g, fabric, s, p, d, i);
    SplitPath(g, fabric, s, p, d, j);
    if NodeAt(g, s, p, i) == NodeAt(g, s, p, j) {
      Concatenate(g, fabric, s, p[..i], NodeAt(g, s, p, i), p[j..], d);
    }
  }

  /** From the head of a usable link a path may begin by going back along it. */
  lemma BackAlong(g: Graph, fabric: bool, a: DirectedLinkId, p: Path, d: NodeId)
    requires Usable(g, fabric, a) && IsPath(g, fabric, Tail(g, a), p, d)
    ensures IsPath(g, fabric, Head(g, a), [Reverse(a)] + p, d)
  {
    ReverseUsable(g, fabric, a);
    assert ([Reverse(a)] + p)[1..] == p;
  }

  // Distances

  /** `hops` is the length of the shortest paths from s to d. */
  ghost predicate IsDistance(g: Graph, fabric: bool, s: NodeId, d: NodeId, hops: nat) {
    (exists p :: IsPath(g, fabric, s, p, d) && |p| == hops) && forall q :: IsPath(g, fabric, s, q, d) ==> hops <= |q|
  }

  lemma DistanceUnique(g: Graph, fabric: bool, s: NodeId, d: NodeId, a: nat, b: nat)
    requires IsDistance(g, fabric, s, d, a) && IsDistance(g, fabric, s, d, b)
    ensures a == b
  {
  }

  lemma {:induction false} ReversePath(g: Graph, fabric: bool, s: NodeId, p: Path, d: NodeId) returns (q: Path)
    requires IsPath(g, fabric, s, p, d)
    ensures IsPath(g, fabric, d, q, s) && |q| == |p|
    decreases |p|
  {
    if |p| == 0 {
      q := [];
    } else {
      var rest := ReversePath(g, fabric, Head(g, p[0]), p[1..], d);
      ReverseUsable(g, fabric, p[0]);
      var back := [Reverse(p[0])];
      assert back[1..] == [];
      Concatenate(g, fabric, d, rest, Head(g, p[0]), back, s);
      q := rest + back;
    }
  }

  /** Structure that no state change touches. */
  lemma StructureKeepsArcs(g: Graph, h: Graph)
    requires SameStructure(g, h)
    ensures AdjacencyOk(g) ==> AdjacencyOk(h)
    ensures KindsOk(g) ==> KindsOk(h)
  {
    forall a ensures Known(g, a) <==> Known(h, a) {
      SameKnown(g, h, a);
    }
    forall a | Known(g, a) && Known(h, a)
      ensures Tail(g, a) == Tail(h, a) && Head(g, a) == Head(h, a) && ArcOf(g, a) == ArcOf(h, a)
              && g.links[a.link].kind == h.links[a.link].kind
    {
      SameKnown(g, h, a);
    }
    forall n ensures Contains(g, n) <==> Contains(h, n) {
    }
    hide Known, Tail, Head, Contains;
    if AdjacencyOk(g) {
      forall n | Contains(h, n) ensures ListsArcs(h, n) {
        assert ListsArcs(g, n);
        assert Arcs(g, n) == Arcs(h, n);
        forall a | Known(h, a) && Tail(h, a) == n ensures Leaves(h, n, a) {
          assert Leaves(g, n, a);
        }
      }
    }
  }

  lemma SameKnown(g: Graph, h: Graph, a: DirectedLinkId)
    requires SameStructure(g, h)
    ensures Known(g, a) <==> Known(h, a)
    ensures Known(g, a) ==> Tail(g, a) == Tail(h, a) && Head(g, a) == Head(h, a) && ArcOf(g, a) == ArcOf(h, a)
                            && g.links[a.link].kind == h.links[a.link].kind
  {
  }

  // Paths between NICs and switches

  /** A shortest path between two nodes that are not GPUs never leaves the fabric. */
  lemma ShortestStaysOnFabric(g: Graph, s: NodeId, p: Path, d: NodeId)
    requires KindsOk(g) && Shortest(g, false, s, p, d) && !s.Gpu? && !d.Gpu?
    ensures IsPath(g, true, s, p, d)
  {
    PathKnown(g, false, s, p, d);
    forall i | 0 <= i < |p| ensures g.links[p[i].link].kind == FabricLink {
      NoGpuOnShortest(g, s, p, d, i);
      NoGpuOnShortest(g, s, p, d, i + 1);
      SplitPath(g, false, s, p, d, i);
      assert p[i..][0] == p[i];
    }
    AllFabric(g, s, p, d);
  }

  lemma {:induction false} AllFabric(g: Graph, s: NodeId, p: Path, d: NodeId)
    requires IsPath(g, false, s, p, d)
    requires forall i :: 0 <= i < |p| ==> Known(g, p[i]) && g.links[p[i].link].kind == FabricLink
    ensures IsPath(g, true, s, p, d)
    decreases |p|
  {
    if |p| > 0 {
      assert forall i :: 0 <= i < |p[1..]| ==> p[1..][i] == p[i + 1];
      AllFabric(g, Head(g, p[0]), p[1..], d);
    }
  }

  /** To pass a GPU a path would have to turn back to the NIC it came from. */
  lemma NoGpuOnShortest(g: Graph, s: NodeId, p: Path, d: NodeId, k: nat)
    requires KindsOk(g) && Shortest(g, false, s, p, d) && !s.Gpu? && !d.Gpu? && k <= |p|
    ensures (forall i :: 0 <= i < |p| ==> Known(g, p[i])) && !NodeAt(g, s, p, k).Gpu?
  {
    hide Usable, Operational, Tail, Head, Known, KindsOk, IsPath;
    SplitPath(g, false, s, p, d, k);
    if k == |p| {
      EndsThere(g, s, p, d);
    }
    if NodeAt(g, s, p, k).Gpu? {
      TurnsBack(g, s, p, d, k);
      ShortestIsSimple(g, false, s, p, d, k - 1, k + 1);
    }
  }

  lemma EndsThere(g: Graph, s: NodeId, p: Path, d: NodeId)
    requires IsPath(g, false, s, p, d)
    ensures (forall i :: 0 <= i < |p| ==> Known(g, p[i])) && NodeAt(g, s, p, |p|) == d
  {
    SplitPath(g, false, s, p, d, |p|);
    assert p[|p|..] == [];
  }

  lemma TurnsBack(g: Graph, s: NodeId, p: Path, d: NodeId, k: nat)
    requires KindsOk(g) && IsPath(g, false, s, p, d) && 0 < k < |p|
    requires (forall i :: 0 <= i < |p| ==> Known(g, p[i])) && NodeAt(g, s, p, k).Gpu?
    ensures NodeAt(g, s, p, k + 1) == NodeAt(g, s, p, k - 1)
  {
    hide Operational;
    SplitPath(g, false, s, p, d, k);
    SplitPath(g, false, s, p, d, k - 1);
    PathKnown(g, false, s, p, d);
    ReverseUsable(g, false, p[k - 1]);
    assert p[k - 1..][0] == p[k - 1] && p[k..][0] == p[k];
    assert Tail(g, p[k]) == NodeAt(g, s, p, k) && Tail(g, p[k - 1]) == NodeAt(g, s, p, k - 1);
    assert Reverse(p[k - 1]) == p[k];
  }

  lemma {:induction false} ShortestExists(g: Graph, fabric: bool, s: NodeId, p: Path, d: NodeId) returns (q: Path)
    requires IsPath(g, fabric, s, p, d)
    ensures Shortest(g, fabric, s, q, d) && |q| <= |p|
    decreases |p|
  {
    hide IsPath;
    if exists r :: IsPath(g, fabric, s, r, d) && |r| < |p| {
      var r :| IsPath(g, fabric, s, r, d) && |r| < |p|;
      q := ShortestExists(g, fabric, s, r, d);
    } else {
      q := p;
    }
  }

  /** Between NICs and switches the shortest paths over all links are those over the fabric. */
  lemma ShortestOnFabric(g: Graph, s: NodeId, p: Path, d: NodeId)
    requires KindsOk(g) && !s.Gpu? && !d.Gpu?
    ensures Shortest(g, true, s, p, d) <==> Shortest(g, false, s, p, d)
  {
    hide IsPath, KindsOk;
    if Shortest(g, false, s, p, d) {
      ShortestStaysOnFabric(g, s, p, d);
      forall q | IsPath(g, true, s, q, d) ensures |p| <= |q| {
        FabricIsAny(g, s, q, d);
      }
    }
    if Shortest(g, true, s, p, d) {
      FabricIsAny(g, s, p, d);
      forall q | IsPath(g, false, s, q, d) ensures |p| <= |q| {
        var r := ShortestExists(g, false, s, q, d);
        ShortestStaysOnFabric(g, s, r, d);
      }
    }
  }
}
