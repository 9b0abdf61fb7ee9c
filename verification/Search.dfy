/** Breadth-first search over usable links, as used by path enumeration and by the path counter. */
module Search {
  import opened Prelude
  import opened Events
  import opened Topology
  import opened Routes

  type Distances = map<NodeId, nat>

  ghost function NodeSet(g: Graph): (nodes: set<NodeId>)
    ensures forall n :: Contains(g, n) ==> n in nodes
  {
    (set i | 0 <= i < |g.gpus| :: Gpu(i)) + (set i | 0 <= i < |g.nics| :: Nic(i))
      + (set i | 0 <= i < |g.switches| :: Switch(i))
  }

  /** Every discovered node once, in the order of discovery, which is the order of distance. */
  ghost predicate FrontierOk(g: Graph, root: NodeId, distance: Distances, frontier: seq<NodeId>) {
    && 0 < |frontier| && frontier[0] == root && root in distance && distance[root] == 0
    && (forall i :: 0 <= i < |frontier| ==> frontier[i] in distance && Contains(g, frontier[i]))
    && (forall v :: v in distance ==> v in frontier)
    && (forall i, k :: 0 <= i < k < |frontier| ==> frontier[i] != frontier[k])
    && (forall i, k :: 0 <= i < k < |frontier| && frontier[i] in distance && frontier[k] in distance ==>
          distance[frontier[i]] <= distance[frontier[k]])
  }

  /** No distance exceeds that of the node being expanded by more than one. */
  ghost predicate Near(distance: Distances, frontier: seq<NodeId>, cursor: nat) {
    cursor < |frontier| && frontier[cursor] in distance ==>
      forall v :: v in distance ==> distance[v] <= distance[frontier[cursor]] + 1
  }

  /** Every distance is realised by a path to the root. */
  ghost predicate Realised(g: Graph, fabric: bool, root: NodeId, distance: Distances) {
    forall v :: v in distance ==> HasPath(g, fabric, v, root, distance[v])
  }

  ghost predicate HasPath(g: Graph, fabric: bool, v: NodeId, root: NodeId, hops: nat) {
    exists p :: IsPath(g, fabric, v, p, root) && |p| == hops
  }

  /** What lies across a usable link is discovered, and at most one further away. */
  ghost predicate Across(g: Graph, fabric: bool, distance: Distances, v: NodeId, a: DirectedLinkId) {
    Usable(g, fabric, a) && v in distance ==> Head(g, a) in distance && distance[Head(g, a)] <= distance[v] + 1
  }

  /** The first k links of a node have been followed. */
  ghost predicate Followed(g: Graph, fabric: bool, distance: Distances, v: NodeId, k: nat) {
    k <= |Arcs(g, v)| && forall i :: 0 <= i < k ==> Across(g, fabric, distance, v, Arcs(g, v)[i].id)
  }

  ghost predicate Expanded(g: Graph, fabric: bool, distance: Distances, frontier: seq<NodeId>, cursor: nat) {
    forall i :: 0 <= i < cursor && i < |frontier| ==> Followed(g, fabric, distance, frontier[i], |Arcs(g, frontier[i])|)
  }

  ghost predicate SearchOk(g: Graph, fabric: bool, root: NodeId, distance: Distances, frontier: seq<NodeId>,
                           cursor: nat) {
    && FrontierOk(g, root, distance, frontier) && cursor <= |frontier|
    && Near(distance, frontier, cursor) && Realised(g, fabric, root, distance)
    && Expanded(g, fabric, distance, frontier, cursor)
  }

  lemma SearchStarts(g: Graph, fabric: bool, root: NodeId)
    requires Contains(g, root)
    ensures SearchOk(g, fabric, root, map[root := 0], [root], 0)
  {
    assert IsPath(g, fabric, root, [], root);
    assert HasPath(g, fabric, root, root, 0);
  }

  /** A link leads to a node that had not been discovered. */
  lemma Discovers(g: Graph, fabric: bool, root: NodeId, distance: Distances, frontier: seq<NodeId>, cursor: nat,
                  a: DirectedLinkId, k: nat)
    requires SearchOk(g, fabric, root, distance, frontier, cursor) && cursor < |frontier|
    requires Usable(g, fabric, a) && Tail(g, a) == frontier[cursor] && Head(g, a) !in distance
    requires Followed(g, fabric, distance, frontier[cursor], k)
    ensures frontier[cursor] in distance
    ensures var next := Head(g, a); var distance' := distance[next := distance[frontier[cursor]] + 1];
            && SearchOk(g, fabric, root, distance', frontier + [next], cursor)
            && Followed(g, fabric, distance', frontier[cursor], k)
  {
    hide FrontierOk, Near, Realised, Expanded, Followed, Usable, Tail, Head, HasPath, IsPath;
    FrontierHas(g, root, distance, frontier);
    UsableEnds(g, fabric, a);
    FurtherPath(g, fabric, root, distance, a);
    var node, next := frontier[cursor], Head(g, a);
    var distance' := distance[next := distance[node] + 1];
    FrontierGrows(g, root, distance, frontier, cursor, next);
    RealisedMore(g, fabric, root, distance, next, distance[node] + 1);
    ExpandedStill(g, fabric, distance, distance', frontier, next, cursor);
    FollowedStill(g, fabric, distance, distance', node, k);
  }

  lemma FrontierHas(g: Graph, root: NodeId, distance: Distances, frontier: seq<NodeId>)
    requires FrontierOk(g, root, distance, frontier)
    ensures forall i :: 0 <= i < |frontier| ==> frontier[i] in distance
  {
  }

  lemma RealisedMore(g: Graph, fabric: bool, root: NodeId, distance: Distances, next: NodeId, hops: nat)
    requires Realised(g, fabric, root, distance) && HasPath(g, fabric, next, root, hops)
    ensures Realised(g, fabric, root, distance[next := hops])
  {
    hide HasPath;
  }

  lemma FrontierGrows(g: Graph, root: NodeId, distance: Distances, frontier: seq<NodeId>, cursor: nat, next: NodeId)
    requires FrontierOk(g, root, distance, frontier) && cursor < |frontier| && Near(distance, frontier, cursor)
    requires next !in distance && Contains(g, next)
    ensures var distance' := distance[next := distance[frontier[cursor]] + 1];
            FrontierOk(g, root, distance', frontier + [next]) && Near(distance', frontier + [next], cursor)
  {
    hide Contains;
    var distance', frontier' := distance[next := distance[frontier[cursor]] + 1], frontier + [next];
    forall v | v in distance' ensures v in frontier' {
      if v == next {
        assert frontier'[|frontier|] == v;
      } else {
        var i :| 0 <= i < |frontier| && frontier[i] == v;
        assert frontier'[i] == v;
      }
    }
    forall i, k | 0 <= i < k < |frontier'| ensures distance'[frontier'[i]] <= distance'[frontier'[k]] {
      assert frontier[i] in distance;
    }
  }

  lemma ExpandedStill(g: Graph, fabric: bool, distance: Distances, distance': Distances, frontier: seq<NodeId>,
                      next: NodeId,
                      cursor: nat)
    requires Expanded(g, fabric, distance, frontier, cursor) && cursor <= |frontier|
    requires forall i :: 0 <= i < |frontier| ==> frontier[i] in distance
    requires forall u :: u in distance ==> u in distance' && distance'[u] == distance[u]
    ensures Expanded(g, fabric, distance', frontier + [next], cursor)
  {
    forall i | 0 <= i < cursor
      ensures Followed(g, fabric, distance', (frontier + [next])[i], |Arcs(g, (frontier + [next])[i])|) {
      FollowedStill(g, fabric, distance, distance', frontier[i], |Arcs(g, frontier[i])|);
    }
    hide Followed;
  }

  lemma FollowedStill(g: Graph, fabric: bool, distance: Distances, distance': Distances, v: NodeId, k: nat)
    requires Followed(g, fabric, distance, v, k) && v in distance
    requires forall u :: u in distance ==> u in distance' && distance'[u] == distance[u]
    ensures Followed(g, fabric, distance', v, k)
  {
    hide Usable;
    forall i | 0 <= i < k ensures Across(g, fabric, distance', v, Arcs(g, v)[i].id) {
      assert Across(g, fabric, distance, v, Arcs(g, v)[i].id);
    }
  }

  lemma FurtherPath(g: Graph, fabric: bool, root: NodeId, distance: Distances, a: DirectedLinkId)
    requires Realised(g, fabric, root, distance) && Usable(g, fabric, a) && Tail(g, a) in distance
    ensures HasPath(g, fabric, Head(g, a), root, distance[Tail(g, a)] + 1)
  {
    hide IsPath, Operational, Reverse;
    assert HasPath(g, fabric, Tail(g, a), root, distance[Tail(g, a)]);
    var p :| IsPath(g, fabric, Tail(g, a), p, root) && |p| == distance[Tail(g, a)];
    BackAlong(g, fabric, a, p, root);
  }

  /** One more link of the current node has been looked at. */
  lemma FollowsOne(g: Graph, fabric: bool, root: NodeId, distance: Distances, frontier: seq<NodeId>, cursor: nat,
                   k: nat)
    requires SearchOk(g, fabric, root, distance, frontier, cursor) && cursor < |frontier|
    requires Followed(g, fabric, distance, frontier[cursor], k) && k < |Arcs(g, frontier[cursor])|
    requires Usable(g, fabric, Arcs(g, frontier[cursor])[k].id) ==> Head(g, Arcs(g, frontier[cursor])[k].id) in distance
    ensures Followed(g, fabric, distance, frontier[cursor], k + 1)
  {
    hide Usable, Tail, Head, Realised, Expanded, FrontierOk;
  }

  /** The current node is done. */
  lemma Advances(g: Graph, fabric: bool, root: NodeId, distance: Distances, frontier: seq<NodeId>, cursor: nat)
    requires SearchOk(g, fabric, root, distance, frontier, cursor) && cursor < |frontier|
    requires Followed(g, fabric, distance, frontier[cursor], |Arcs(g, frontier[cursor])|)
    ensures SearchOk(g, fabric, root, distance, frontier, cursor + 1)
  {
    hide Realised, Followed;
  }

  lemma {:induction false} DistinctWithin(s: seq<NodeId>, nodes: set<NodeId>)
    requires forall i, k :: 0 <= i < k < |s| ==> s[i] != s[k]
    requires forall i :: 0 <= i < |s| ==> s[i] in nodes
    ensures |s| <= |nodes|
  {
    if s != [] {
      var last := |s| - 1;
      DistinctWithin(s[..last], nodes - {s[last]});
    }
  }

  lemma FrontierBound(g: Graph, root: NodeId, distance: Distances, frontier: seq<NodeId>)
    requires FrontierOk(g, root, distance, frontier)
    ensures |frontier| <= |NodeSet(g)|
  {
    DistinctWithin(frontier, NodeSet(g));
  }

  /** The distances of exactly the nodes that can reach the root. */
  ghost predicate DistancesOk(g: Graph, fabric: bool, root: NodeId, distance: Distances) {
    && (forall v :: v in distance ==> IsDistance(g, fabric, v, root, distance[v]) && Contains(g, v))
    && (forall v, p :: IsPath(g, fabric, v, p, root) ==> v in distance)
  }

  lemma {:induction false} Reaches(g: Graph, fabric: bool, root: NodeId, distance: Distances, frontier: seq<NodeId>,
                                   v: NodeId, p: Path)
    requires AdjacencyOk(g) && SearchOk(g, fabric, root, distance, frontier, |frontier|)
             && IsPath(g, fabric, v, p, root)
    ensures v in distance && distance[v] <= |p|
    decreases |p|
  {
    if |p| > 0 {
      var u := Head(g, p[0]);
      Reaches(g, fabric, root, distance, frontier, u, p[1..]);
      ReverseUsable(g, fabric, p[0]);
      ClosedAcross(g, fabric, root, distance, frontier, Reverse(p[0]));
    }
  }

  lemma ClosedAcross(g: Graph, fabric: bool, root: NodeId, distance: Distances, frontier: seq<NodeId>,
                     a: DirectedLinkId)
    requires AdjacencyOk(g) && SearchOk(g, fabric, root, distance, frontier, |frontier|)
    requires Usable(g, fabric, a) && Tail(g, a) in distance
    ensures Across(g, fabric, distance, Tail(g, a), a)
  {
    var u := Tail(g, a);
    var i :| 0 <= i < |frontier| && frontier[i] == u;
    assert ListsArcs(g, u) && Leaves(g, u, a);
    var k :| 0 <= k < |Arcs(g, u)| && Arcs(g, u)[k].id == a;
    assert Followed(g, fabric, distance, u, |Arcs(g, u)|);
  }

  lemma SearchDone(g: Graph, fabric: bool, root: NodeId, distance: Distances, frontier: seq<NodeId>)
    requires AdjacencyOk(g) && SearchOk(g, fabric, root, distance, frontier, |frontier|)
    ensures DistancesOk(g, fabric, root, distance)
  {
    hide AdjacencyOk, SearchOk, IsPath;
    forall v, p | IsPath(g, fabric, v, p, root) ensures v in distance && distance[v] <= |p| {
      Reaches(g, fabric, root, distance, frontier, v, p);
    }
    forall v | v in distance ensures IsDistance(g, fabric, v, root, distance[v]) && Contains(g, v) {
      Discovered(g, fabric, root, distance, frontier, v);
    }
  }

  lemma Discovered(g: Graph, fabric: bool, root: NodeId, distance: Distances, frontier: seq<NodeId>, v: NodeId)
    requires SearchOk(g, fabric, root, distance, frontier, |frontier|) && v in distance
    ensures HasPath(g, fabric, v, root, distance[v]) && Contains(g, v)
  {
    hide HasPath, Expanded, Near, Contains;
    var i :| 0 <= i < |frontier| && frontier[i] == v;
  }

  // Distances are final from the start

  /** A node within reach of the levels already expanded is discovered. */
  lemma {:induction false} ReachedEarly(g: Graph, fabric: bool, root: NodeId, distance: Distances,
                                        frontier: seq<NodeId>,
                                        cursor: nat, u: NodeId, q: Path)
    requires AdjacencyOk(g) && SearchOk(g, fabric, root, distance, frontier, cursor) && cursor < |frontier|
    requires frontier[cursor] in distance && IsPath(g, fabric, u, q, root) && |q| <= distance[frontier[cursor]]
    ensures u in distance && distance[u] <= |q|
    decreases |q|
  {
    if |q| > 0 {
      var w := Head(g, q[0]);
      ReachedEarly(g, fabric, root, distance, frontier, cursor, w, q[1..]);
      ReverseUsable(g, fabric, q[0]);
      hide IsPath, Realised, Near;
      ExpandedBefore(g, fabric, root, distance, frontier, cursor, Reverse(q[0]));
    }
  }

  lemma ExpandedBefore(g: Graph, fabric: bool, root: NodeId, distance: Distances, frontier: seq<NodeId>, cursor: nat,
                       a: DirectedLinkId)
    requires AdjacencyOk(g) && SearchOk(g, fabric, root, distance, frontier, cursor) && cursor < |frontier|
    requires Usable(g, fabric, a) && Tail(g, a) in distance && frontier[cursor] in distance
    requires distance[Tail(g, a)] < distance[frontier[cursor]]
    ensures Head(g, a) in distance && distance[Head(g, a)] <= distance[Tail(g, a)] + 1
  {
    hide Operational;
    var w := Tail(g, a);
    var i :| 0 <= i < |frontier| && frontier[i] == w;
    assert ListsArcs(g, w) && Leaves(g, w, a);
    var k :| 0 <= k < |Arcs(g, w)| && Arcs(g, w)[k].id == a;
    assert Followed(g, fabric, distance, w, |Arcs(g, w)|);
    assert Across(g, fabric, distance, w, a);
  }

  /** Already during the search, a distance is that of a shortest path. */
  lemma FinalEarly(g: Graph, fabric: bool, root: NodeId, distance: Distances, frontier: seq<NodeId>, cursor: nat,
                   v: NodeId)
    requires AdjacencyOk(g) && SearchOk(g, fabric, root, distance, frontier, cursor) && cursor < |frontier|
             && v in distance
    ensures IsDistance(g, fabric, v, root, distance[v])
  {
    hide IsPath, AdjacencyOk, Expanded;
    FrontierHas(g, root, distance, frontier);
    assert HasPath(g, fabric, v, root, distance[v]);
    forall q | IsPath(g, fabric, v, q, root) ensures distance[v] <= |q| {
      if |q| <= distance[frontier[cursor]] {
        ReachedEarly(g, fabric, root, distance, frontier, cursor, v, q);
      }
    }
  }
}
