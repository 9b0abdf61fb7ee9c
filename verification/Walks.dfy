/** Walking down a distance map: the shortest paths, each once. */
module Walks {
  import opened Prelude
  import opened Events
  import opened Topology
  import opened Routes
  import opened Search

  function Prefixed(prefix: Path, paths: seq<Path>): (r: seq<Path>)
    ensures |r| == |paths| && forall i :: 0 <= i < |r| ==> r[i] == prefix + paths[i]
  {
    seq(|paths|, i requires 0 <= i < |paths| => prefix + paths[i])
  }

  lemma PrefixedSplit(prefix: Path, a: seq<Path>, b: seq<Path>)
    ensures Prefixed(prefix, a + b) == Prefixed(prefix, a) + Prefixed(prefix, b)
  {
  }

  lemma PrefixedTwice(prefix: Path, id: DirectedLinkId, paths: seq<Path>)
    ensures Prefixed(prefix, Prefixed([id], paths)) == Prefixed(prefix + [id], paths)
  {
    forall i | 0 <= i < |paths| ensures prefix + ([id] + paths[i]) == (prefix + [id]) + paths[i] {
    }
  }

  /** The link leads one step closer to the destination. */
  predicate Closer(g: Graph, distance: Distances, node: NodeId, arc: DirectedLink) {
    node in distance && Usable(g, true, arc.id) && Head(g, arc.id) in distance
      && distance[Head(g, arc.id)] < distance[node]
  }

  /** Every way down from a node, depth first. */
  ghost function WaysFrom(g: Graph, distance: Distances, node: NodeId): seq<Path>
    requires node in distance
    decreases distance[node], 1, 0
  {
    if distance[node] == 0 then [[]] else WaysVia(g, distance, node, 0)
  }

  /** The ways down through the links of a node from the i-th on. */
  ghost function WaysVia(g: Graph, distance: Distances, node: NodeId, i: nat): seq<Path>
    requires node in distance && i <= |Arcs(g, node)|
    decreases distance[node], 0, |Arcs(g, node)| - i
  {
    if i == |Arcs(g, node)| then []
    else
      var arc := Arcs(g, node)[i];
      (if Closer(g, distance, node, arc) then Prefixed([arc.id], WaysFrom(g, distance, Head(g, arc.id))) else [])
      + WaysVia(g, distance, node, i + 1)
  }

  /** Neighbours differ by at most one. */
  lemma Graded(g: Graph, root: NodeId, distance: Distances, a: DirectedLinkId)
    requires DistancesOk(g, true, root, distance) && Usable(g, true, a) && Tail(g, a) in distance
             && Head(g, a) in distance
    ensures distance[Tail(g, a)] <= distance[Head(g, a)] + 1
  {
    hide IsPath, Operational;
    assert IsDistance(g, true, Head(g, a), root, distance[Head(g, a)]);
    var p :| IsPath(g, true, Head(g, a), p, root) && |p| == distance[Head(g, a)];
    FirstAlong(g, a, p, root);
    assert IsDistance(g, true, Tail(g, a), root, distance[Tail(g, a)]);
  }

  lemma FirstAlong(g: Graph, a: DirectedLinkId, p: Path, d: NodeId)
    requires Usable(g, true, a) && IsPath(g, true, Head(g, a), p, d)
    ensures IsPath(g, true, Tail(g, a), [a] + p, d)
  {
    assert ([a] + p)[1..] == p;
  }

  /** A link down goes down by exactly one. */
  lemma CloserByOne(g: Graph, root: NodeId, distance: Distances, node: NodeId, arc: DirectedLink)
    requires DistancesOk(g, true, root, distance) && Closer(g, distance, node, arc) && Known(g, arc.id)
             && Tail(g, arc.id) == node
    ensures Head(g, arc.id) in distance && node in distance && distance[Head(g, arc.id)] + 1 == distance[node]
  {
    Graded(g, root, distance, arc.id);
  }

  lemma ListedArc(g: Graph, root: NodeId, distance: Distances, node: NodeId, i: nat)
    requires AdjacencyOk(g) && DistancesOk(g, true, root, distance) && node in distance && i < |Arcs(g, node)|
    ensures var arc := Arcs(g, node)[i]; Known(g, arc.id) && arc == ArcOf(g, arc.id) && Tail(g, arc.id) == node
  {
    hide IsDistance, IsPath;
    assert ListsArcs(g, node);
  }

  /** Every way down is a path to the destination, as long as the distance. */
  lemma {:induction false} WaysArePaths(g: Graph, root: NodeId, distance: Distances, node: NodeId, k: nat)
    requires AdjacencyOk(g) && DistancesOk(g, true, root, distance) && node in distance
             && k < |WaysFrom(g, distance, node)|
    ensures var p := WaysFrom(g, distance, node)[k]; IsPath(g, true, node, p, root) && |p| == distance[node]
    decreases distance[node], 1, 0
  {
    if distance[node] == 0 {
      AtRoot(g, root, distance, node);
    } else {
      ViaArePaths(g, root, distance, node, 0, k);
    }
  }

  lemma AtRoot(g: Graph, root: NodeId, distance: Distances, node: NodeId)
    requires DistancesOk(g, true, root, distance) && node in distance && distance[node] == 0
    ensures node == root
  {
    assert IsDistance(g, true, node, root, 0);
  }

  lemma {:induction false} ViaArePaths(g: Graph, root: NodeId, distance: Distances, node: NodeId, i: nat, k: nat)
    requires AdjacencyOk(g) && DistancesOk(g, true, root, distance) && node in distance && distance[node] > 0
    requires i <= |Arcs(g, node)| && k < |WaysVia(g, distance, node, i)|
    ensures var p := WaysVia(g, distance, node, i)[k]; IsPath(g, true, node, p, root) && |p| == distance[node]
    decreases distance[node], 0, |Arcs(g, node)| - i
  {
    hide AdjacencyOk, DistancesOk, Usable, Tail;
    var arc := Arcs(g, node)[i];
    ListedArc(g, root, distance, node, i);
    var here := if Closer(g, distance, node, arc) then Prefixed([arc.id], WaysFrom(g, distance, Head(g, arc.id)))
    else [];
    if k < |here| {
      CloserByOne(g, root, distance, node, arc);
      WaysArePaths(g, root, distance, Head(g, arc.id), k);
      assert here[k][1..] == WaysFrom(g, distance, Head(g, arc.id))[k];
    } else {
      ViaArePaths(g, root, distance, node, i + 1, k - |here|);
    }
  }

  /** Every path as long as the distance is one of the ways down. */
  lemma {:induction false} PathsAreWays(g: Graph, root: NodeId, distance: Distances, node: NodeId, p: Path)
    requires AdjacencyOk(g) && DistancesOk(g, true, root, distance) && node in distance
    requires IsPath(g, true, node, p, root) && |p| == distance[node]
    ensures p in WaysFrom(g, distance, node)
    decreases |p|
  {
    if |p| == 0 {
      assert p == [];
    } else {
      var u := Head(g, p[0]);
      ShorterBelow(g, root, distance, node, p);
      PathsAreWays(g, root, distance, u, p[1..]);
      assert ListsArcs(g, node) && Leaves(g, node, p[0]);
      var i :| 0 <= i < |Arcs(g, node)| && Arcs(g, node)[i].id == p[0];
      ViaHas(g, distance, node, 0, i, p);
    }
  }

  lemma ShorterBelow(g: Graph, root: NodeId, distance: Distances, node: NodeId, p: Path)
    requires DistancesOk(g, true, root, distance) && node in distance && |p| > 0
    requires IsPath(g, true, node, p, root) && |p| == distance[node]
    ensures Head(g, p[0]) in distance && distance[Head(g, p[0])] == |p| - 1
  {
    var u := Head(g, p[0]);
    assert IsPath(g, true, u, p[1..], root);
    assert IsDistance(g, true, u, root, distance[u]);
    Graded(g, root, distance, p[0]);
  }

  lemma {:induction false} ViaHas(g: Graph, distance: Distances, node: NodeId, from: nat, i: nat, p: Path)
    requires node in distance && from <= i < |Arcs(g, node)| && |p| > 0 && p[0] == Arcs(g, node)[i].id
    requires Closer(g, distance, node, Arcs(g, node)[i]) && p[1..] in WaysFrom(g, distance, Head(g, p[0]))
    ensures p in WaysVia(g, distance, node, from)
    decreases i - from
  {
    hide Operational, Head;
    if from < i {
      ViaHas(g, distance, node, from + 1, i, p);
    } else {
      var ways := WaysFrom(g, distance, Head(g, p[0]));
      var k :| 0 <= k < |ways| && ways[k] == p[1..];
      assert [p[0]] + p[1..] == p;
      assert Prefixed([p[0]], ways)[k] == p;
      assert WaysVia(g, distance, node, from)[k] == p;
    }
  }

  ghost predicate Distinct(paths: seq<Path>) {
    forall i, k :: 0 <= i < k < |paths| ==> paths[i] != paths[k]
  }

  /** No way down is listed twice. */
  lemma {:induction false} WaysDiffer(g: Graph, root: NodeId, distance: Distances, node: NodeId)
    requires AdjacencyOk(g) && DistancesOk(g, true, root, distance) && node in distance
    ensures Distinct(WaysFrom(g, distance, node))
    decreases distance[node], 1, 0
  {
    if distance[node] > 0 {
      ViaDiffer(g, root, distance, node, 0);
    }
  }

  lemma {:induction false} ViaStarts(g: Graph, distance: Distances, node: NodeId, i: nat, k: nat)
    requires node in distance && i <= |Arcs(g, node)| && k < |WaysVia(g, distance, node, i)|
    ensures var p := WaysVia(g, distance, node, i)[k];
            |p| > 0 && exists j :: i <= j < |Arcs(g, node)| && Arcs(g, node)[j].id == p[0]
    decreases |Arcs(g, node)| - i
  {
    hide Operational, Head, WaysFrom;
    var arc := Arcs(g, node)[i];
    var here := if Closer(g, distance, node, arc) then Prefixed([arc.id], WaysFrom(g, distance, Head(g, arc.id)))
    else [];
    if k >= |here| {
      ViaStarts(g, distance, node, i + 1, k - |here|);
    } else {
      assert here[k][0] == arc.id;
    }
  }

  lemma {:induction false} ViaDiffer(g: Graph, root: NodeId, distance: Distances, node: NodeId, i: nat)
    requires AdjacencyOk(g) && DistancesOk(g, true, root, distance) && node in distance && i <= |Arcs(g, node)|
    ensures Distinct(WaysVia(g, distance, node, i))
    decreases distance[node], 0, |Arcs(g, node)| - i
  {
    if i < |Arcs(g, node)| {
      var arc := Arcs(g, node)[i];
      ViaDiffer(g, root, distance, node, i + 1);
      var rest := WaysVia(g, distance, node, i + 1);
      forall k | 0 <= k < |rest| ensures |rest[k]| > 0 && rest[k][0] != arc.id {
        ViaStarts(g, distance, node, i + 1, k);
        assert ListsArcs(g, node);
      }
      if Closer(g, distance, node, arc) {
        WaysDiffer(g, root, distance, Head(g, arc.id));
        Joined(arc.id, WaysFrom(g, distance, Head(g, arc.id)), rest);
      }
    }
  }

  lemma Joined(id: DirectedLinkId, ways: seq<Path>, rest: seq<Path>)
    requires Distinct(ways) && Distinct(rest) && forall k :: 0 <= k < |rest| ==> |rest[k]| > 0 && rest[k][0] != id
    ensures Distinct(Prefixed([id], ways) + rest)
  {
    var all := Prefixed([id], ways) + rest;
    forall i, k | 0 <= i < k < |all| ensures all[i] != all[k] {
      if k < |ways| {
        assert all[i][1..] == ways[i] && all[k][1..] == ways[k];
      } else if i < |ways| {
        assert all[i][0] == id;
      }
    }
  }
}
