/** `shortest_path_summary` of `simulator/src/topology/graph.cpp`: hop distance and number of shortest paths. */
module PathSummaries {
  import opened Prelude
  import opened Events
  import opened Topology
  import opened Routes
  import opened Search
  import opened Paths

  datatype Summary = Summary(hops: nat, pathCount: nat)

  type Counts = map<NodeId, nat>

  /** The shortest paths found so far, by the node they lead to. */
  type Found = map<NodeId, set<Path>>

  /** A link that has been followed: any of the nodes before the cursor, the first k of the current one. */
  ghost predicate Past(g: Graph, frontier: seq<NodeId>, cursor: nat, k: nat, a: DirectedLinkId) {
    && Known(g, a)
    && ((exists i :: 0 <= i < cursor && i < |frontier| && frontier[i] == Tail(g, a))
        || (cursor < |frontier| && Tail(g, a) == frontier[cursor]
            && exists j :: 0 <= j < k && j < |Arcs(g, frontier[cursor])| && Arcs(g, frontier[cursor])[j].id == a))
  }

  /** What has been found are shortest paths that end in links already followed. */
  ghost predicate FoundOk(g: Graph, source: NodeId, distance: Distances, frontier: seq<NodeId>, cursor: nat, k: nat,
                          found: Found) {
    && (forall v :: v in found <==> v in distance)
    && (forall v, p :: v in found && v in distance && p in found[v] ==>
          && IsPath(g, false, source, p, v) && |p| == distance[v]
          && (|p| > 0 ==> Past(g, frontier, cursor, k, p[|p| - 1])))
    && source in found && [] in found[source]
  }

  /** Every path found to the tail of a followed link goes on along that link. */
  ghost predicate Extended(g: Graph, distance: Distances, found: Found, a: DirectedLinkId) {
    Known(g, a) && Tail(g, a) in found && Head(g, a) in found && Tail(g, a) in distance && Head(g, a) in distance
    && distance[Head(g, a)] == distance[Tail(g, a)] + 1 ==>
      forall p :: p in found[Tail(g, a)] ==> p + [a] in found[Head(g, a)]
  }

  ghost predicate AllExtended(g: Graph, distance: Distances, frontier: seq<NodeId>, cursor: nat, k: nat, found: Found) {
    forall a :: Usable(g, false, a) && Past(g, frontier, cursor, k, a) ==> Extended(g, distance, found, a)
  }

  ghost predicate CountsOk(found: Found, counts: Counts) {
    forall v :: v in counts <==> v in found
  }

  ghost predicate SizesOk(found: Found, counts: Counts) {
    forall v :: v in counts && v in found ==> counts[v] == |found[v]|
  }

  ghost predicate TallyOk(g: Graph, source: NodeId, distance: Distances, frontier: seq<NodeId>, cursor: nat, k: nat,
                          found: Found, counts: Counts)
  {
    && FoundOk(g, source, distance, frontier, cursor, k, found) && AllExtended(g, distance, frontier, cursor, k, found)
    && CountsOk(found, counts) && SizesOk(found, counts)
  }

  /** The paths a link adds to the node it leads to. */
  ghost function Onward(paths: set<Path>, a: DirectedLinkId): set<Path> {
    set p | p in paths :: p + [a]
  }

  lemma {:induction false} OnwardSize(paths: set<Path>, a: DirectedLinkId)
    ensures |Onward(paths, a)| == |paths|
    decreases |paths|
  {
    if paths != {} {
      var p :| p in paths;
      OnwardSize(paths - {p}, a);
      assert Onward(paths, a) == Onward(paths - {p}, a) + {p + [a]};
      forall q | q in paths - {p} ensures q + [a] != p + [a] {
        assert (q + [a])[..|q|] == q && (p + [a])[..|p|] == p;
      }
      assert p + [a] !in Onward(paths - {p}, a);
    }
  }

  lemma TallyStarts(g: Graph, source: NodeId)
    ensures TallyOk(g, source, map[source := 0], [source], 0, 0, map[source := {[]}], map[source := 1])
  {
    assert IsPath(g, false, source, [], source);
  }

  // Following one link

  /** The link about to be followed has not been followed yet. */
  lemma NotPast(g: Graph, source: NodeId, distance: Distances, frontier: seq<NodeId>, cursor: nat, k: nat)
    requires FrontierOk(g, source, distance, frontier) && cursor < |frontier| && k < |Arcs(g, frontier[cursor])|
    requires ListsArcs(g, frontier[cursor])
    ensures !Past(g, frontier, cursor, k, Arcs(g, frontier[cursor])[k].id)
  {
  }

  /** The new paths were not there before: nothing found so far ends in this link. */
  lemma NewPaths(g: Graph, source: NodeId, distance: Distances, frontier: seq<NodeId>, cursor: nat, k: nat,
                 found: Found,
                 a: DirectedLinkId, v: NodeId, from: set<Path>)
    requires FoundOk(g, source, distance, frontier, cursor, k, found) && !Past(g, frontier, cursor, k, a) && v in found
    ensures found[v] !! Onward(from, a)
  {
    hide IsPath, Past;
    forall q | q in Onward(from, a) ensures |q| > 0 && q[|q| - 1] == a {
    }
  }

  lemma PastMore(g: Graph, frontier: seq<NodeId>, frontier': seq<NodeId>, cursor: nat, k: nat, a: DirectedLinkId)
    requires cursor < |frontier| && frontier <= frontier'
    ensures Past(g, frontier, cursor, k, a) ==> Past(g, frontier', cursor, k + 1, a)
    ensures Past(g, frontier', cursor, k + 1, a) ==>
              Past(g, frontier, cursor, k, a)
                || (k < |Arcs(g, frontier[cursor])| && a == Arcs(g, frontier[cursor])[k].id)
  {
    assert forall i :: 0 <= i <= cursor ==> frontier'[i] == frontier[i];
  }

  /** Across a usable link that was followed lies a discovered node. */
  lemma PastFollowed(g: Graph, source: NodeId, distance: Distances, frontier: seq<NodeId>, cursor: nat, k: nat,
                     b: DirectedLinkId)
    requires AdjacencyOk(g) && SearchOk(g, false, source, distance, frontier, cursor) && cursor < |frontier|
    requires Followed(g, false, distance, frontier[cursor], k) && Usable(g, false, b) && Past(g, frontier, cursor, k, b)
    ensures Head(g, b) in distance && Tail(g, b) in distance && distance[Tail(g, b)] <= distance[frontier[cursor]]
  {
    var u := Tail(g, b);
    if exists i :: 0 <= i < cursor && i < |frontier| && frontier[i] == u {
      var i :| 0 <= i < cursor && i < |frontier| && frontier[i] == u;
      assert ListsArcs(g, u) && Leaves(g, u, b);
      var j :| 0 <= j < |Arcs(g, u)| && Arcs(g, u)[j].id == b;
      assert Followed(g, false, distance, u, |Arcs(g, u)|);
      assert Across(g, false, distance, u, b);
    } else {
      var j :| 0 <= j < k && j < |Arcs(g, u)| && Arcs(g, u)[j].id == b;
      assert Across(g, false, distance, u, b);
    }
  }

  /** Paths to a node after those along one more link have been added. */
  ghost function With(found: Found, v: NodeId, more: set<Path>): Found {
    found[v := if v in found then found[v] + more else more]
  }

  /** The situation in which link k of the current node is followed to the next level. */
  ghost predicate Follows(g: Graph, source: NodeId, distance: Distances, frontier: seq<NodeId>, cursor: nat, k: nat,
                          v: NodeId) {
    && AdjacencyOk(g) && SearchOk(g, false, source, distance, frontier, cursor) && cursor < |frontier|
    && Followed(g, false, distance, frontier[cursor], k) && k < |Arcs(g, frontier[cursor])|
    && frontier[cursor] in distance
    && Usable(g, false, Arcs(g, frontier[cursor])[k].id) && Tail(g, Arcs(g, frontier[cursor])[k].id) == frontier[cursor]
    && v == Head(g, Arcs(g, frontier[cursor])[k].id)
    && (v in distance ==> distance[v] == distance[frontier[cursor]] + 1)
  }

  lemma AddsFound(g: Graph, source: NodeId, distance: Distances, frontier: seq<NodeId>, cursor: nat, k: nat,
                  found: Found,
                  v: NodeId, distance': Distances, frontier': seq<NodeId>)
    requires Follows(g, source, distance, frontier, cursor, k, v)
             && FoundOk(g, source, distance, frontier, cursor, k, found)
    requires distance' == distance[v := distance[frontier[cursor]] + 1] && frontier <= frontier'
    ensures frontier[cursor] in found
    ensures var more := Onward(found[frontier[cursor]], Arcs(g, frontier[cursor])[k].id);
            FoundOk(g, source, distance', frontier', cursor, k + 1, With(found, v, more))
  {
    hide AdjacencyOk, SearchOk, Followed, IsPath, Usable, Past;
    var node := frontier[cursor];
    var a := Arcs(g, node)[k].id;
    var more := Onward(found[node], a);
    forall b ensures Past(g, frontier, cursor, k, b) ==> Past(g, frontier', cursor, k + 1, b) {
      PastMore(g, frontier, frontier', cursor, k, b);
    }
    UsableEnds(g, false, a);
    PastNow(g, frontier, frontier', cursor, k);
    forall q | q in more ensures IsPath(g, false, source, q, v) && |q| == distance[node] + 1 && q[|q| - 1] == a {
      var p :| p in found[node] && q == p + [a];
      assert q[..|q| - 1] == p;
      LastLink(g, false, source, q, v);
    }
  }

  lemma PastNow(g: Graph, frontier: seq<NodeId>, frontier': seq<NodeId>, cursor: nat, k: nat)
    requires cursor < |frontier| && frontier <= frontier' && k < |Arcs(g, frontier[cursor])|
    ensures var a := Arcs(g, frontier[cursor])[k].id;
            Known(g, a) && Tail(g, a) == frontier[cursor] ==> Past(g, frontier', cursor, k + 1, a)
  {
    assert frontier'[cursor] == frontier[cursor];
  }

  lemma AddsExtended(g: Graph, source: NodeId, distance: Distances, frontier: seq<NodeId>, cursor: nat, k: nat,
                     found: Found,
                     v: NodeId, distance': Distances, frontier': seq<NodeId>)
    requires Follows(g, source, distance, frontier, cursor, k, v)
             && FoundOk(g, source, distance, frontier, cursor, k, found)
    requires AllExtended(g, distance, frontier, cursor, k, found) && frontier[cursor] in found
    requires distance' == distance[v := distance[frontier[cursor]] + 1] && frontier <= frontier'
    ensures var more := Onward(found[frontier[cursor]], Arcs(g, frontier[cursor])[k].id);
            AllExtended(g, distance', frontier', cursor, k + 1, With(found, v, more))
  {
    hide AdjacencyOk, SearchOk, Followed, IsPath, Operational, Past;
    var node := frontier[cursor];
    var a := Arcs(g, node)[k].id;
    var found' := With(found, v, Onward(found[node], a));
    forall b | Usable(g, false, b) && Past(g, frontier', cursor, k + 1, b) ensures Extended(g, distance', found', b) {
      PastMore(g, frontier, frontier', cursor, k, b);
      if b == a {
        assert forall p :: p in found[node] ==> p + [a] in Onward(found[node], a);
      } else {
        PastFollowed(g, source, distance, frontier, cursor, k, b);
        assert Extended(g, distance, found, b);
      }
    }
  }

  lemma AddsCounts(found: Found, counts: Counts, v: NodeId, more: set<Path>, size: nat)
    requires CountsOk(found, counts) && SizesOk(found, counts) && |more| == size && (v in found ==> found[v] !! more)
    ensures var counts' := counts[v := if v in counts then counts[v] + size else size];
            CountsOk(With(found, v, more), counts') && SizesOk(With(found, v, more), counts')
  {
  }

  /** A link is followed to the next level: the paths to its tail go on along it. */
  lemma TallyFollows(g: Graph, source: NodeId, distance: Distances, frontier: seq<NodeId>, cursor: nat, k: nat,
                     found: Found,
                     counts: Counts, v: NodeId, distance': Distances, frontier': seq<NodeId>)
    requires Follows(g, source, distance, frontier, cursor, k, v)
             && TallyOk(g, source, distance, frontier, cursor, k, found, counts)
    requires distance' == distance[v := distance[frontier[cursor]] + 1] && frontier <= frontier'
    ensures frontier[cursor] in found && frontier[cursor] in counts
    ensures var more := Onward(found[frontier[cursor]], Arcs(g, frontier[cursor])[k].id);
            TallyOk(g, source, distance', frontier', cursor, k + 1, With(found, v, more),
                    counts[v := if v in counts then counts[v] + counts[frontier[cursor]] else counts[frontier[cursor]]])
  {
    hide AdjacencyOk, FoundOk, AllExtended, Followed, Usable, IsPath, Near, Realised, Expanded;
    var node := frontier[cursor];
    AddsFound(g, source, distance, frontier, cursor, k, found, v, distance', frontier');
    AddsExtended(g, source, distance, frontier, cursor, k, found, v, distance', frontier');
    var a := Arcs(g, node)[k].id;
    OnwardSize(found[node], a);
    ListsAt(g, source, distance, frontier, cursor);
    NotPast(g, source, distance, frontier, cursor, k);
    if v in found {
      NewPaths(g, source, distance, frontier, cursor, k, found, a, v, found[node]);
    }
    hide FrontierOk, Past, Onward;
    AddsCounts(found, counts, v, Onward(found[node], a), counts[node]);
  }

  lemma ListsAt(g: Graph, source: NodeId, distance: Distances, frontier: seq<NodeId>, cursor: nat)
    requires AdjacencyOk(g) && FrontierOk(g, source, distance, frontier) && cursor < |frontier|
    ensures ListsArcs(g, frontier[cursor])
  {
  }

  /** A link that leads nowhere new, or cannot be used, changes nothing. */
  lemma TallySkips(g: Graph, source: NodeId, distance: Distances, frontier: seq<NodeId>, cursor: nat, k: nat,
                   found: Found, counts: Counts)
    requires TallyOk(g, source, distance, frontier, cursor, k, found, counts) && cursor < |frontier|
             && k < |Arcs(g, frontier[cursor])|
    requires frontier[cursor] in distance
    requires var a := Arcs(g, frontier[cursor])[k].id;
             Usable(g, false, a) && Tail(g, a) == frontier[cursor] ==>
               Head(g, a) in distance && distance[Head(g, a)] != distance[frontier[cursor]] + 1
    ensures TallyOk(g, source, distance, frontier, cursor, k + 1, found, counts)
  {
    hide IsPath, Operational, Past;
    forall b ensures Past(g, frontier, cursor, k, b) ==> Past(g, frontier, cursor, k + 1, b) {
      PastMore(g, frontier, frontier, cursor, k, b);
    }
    forall b | Usable(g, false, b) && Past(g, frontier, cursor, k + 1, b) ensures Extended(g, distance, found, b) {
      PastMore(g, frontier, frontier, cursor, k, b);
      if b == Arcs(g, frontier[cursor])[k].id && !Past(g, frontier, cursor, k, b) {
        PastTail(g, frontier, cursor, k, b);
      }
    }
  }

  lemma PastTail(g: Graph, frontier: seq<NodeId>, cursor: nat, k: nat, b: DirectedLinkId)
    requires cursor < |frontier| && Past(g, frontier, cursor, k + 1, b) && !Past(g, frontier, cursor, k, b)
    ensures Tail(g, b) == frontier[cursor]
  {
  }

  /** The current node is done. */
  lemma TallyAdvances(g: Graph, source: NodeId, distance: Distances, frontier: seq<NodeId>, cursor: nat, found: Found,
                      counts: Counts)
    requires cursor < |frontier|
             && TallyOk(g, source, distance, frontier, cursor, |Arcs(g, frontier[cursor])|, found, counts)
    requires AdjacencyOk(g) && FrontierOk(g, source, distance, frontier)
    ensures TallyOk(g, source, distance, frontier, cursor + 1, 0, found, counts)
  {
    hide IsPath, Usable, Past, AdjacencyOk, FrontierOk, Extended;
    forall b ensures Past(g, frontier, cursor, |Arcs(g, frontier[cursor])|, b)
      <==> Past(g, frontier, cursor + 1, 0, b) {
      PastAdvances(g, source, distance, frontier, cursor, b);
    }
  }

  lemma PastAdvances(g: Graph, source: NodeId, distance: Distances, frontier: seq<NodeId>, cursor: nat,
                     b: DirectedLinkId)
    requires cursor < |frontier| && AdjacencyOk(g) && FrontierOk(g, source, distance, frontier)
    ensures Past(g, frontier, cursor, |Arcs(g, frontier[cursor])|, b) <==> Past(g, frontier, cursor + 1, 0, b)
  {
    assert ListsArcs(g, frontier[cursor]);
    if Known(g, b) && Tail(g, b) == frontier[cursor] {
      assert Leaves(g, frontier[cursor], b);
    }
  }

  // The end of the search

  /** Exactly the shortest paths from the source to a node. */
  ghost predicate IsAll(g: Graph, source: NodeId, v: NodeId, all: set<Path>) {
    forall p :: p in all <==> Shortest(g, false, source, p, v)
  }

  /** Distances are the same in both directions. */
  lemma DistanceBack(g: Graph, s: NodeId, d: NodeId, hops: nat)
    requires IsDistance(g, false, s, d, hops)
    ensures IsDistance(g, false, d, s, hops)
  {
    hide IsPath;
    var p :| IsPath(g, false, s, p, d) && |p| == hops;
    var q := ReversePath(g, false, s, p, d);
    forall r | IsPath(g, false, d, r, s) ensures hops <= |r| {
      var back := ReversePath(g, false, d, r, s);
    }
  }

  lemma {:induction false} FindsAll(g: Graph, source: NodeId, distance: Distances, frontier: seq<NodeId>, found: Found,
                                    v: NodeId, p: Path)
    requires AdjacencyOk(g) && SearchOk(g, false, source, distance, frontier, |frontier|)
    requires DistancesOk(g, false, source, distance)
    requires FoundOk(g, source, distance, frontier, |frontier|, 0, found)
             && AllExtended(g, distance, frontier, |frontier|, 0, found)
    requires v in distance && IsPath(g, false, source, p, v) && |p| == distance[v]
    ensures v in found && p in found[v]
    decreases |p|
  {
    hide AdjacencyOk, SearchOk, DistancesOk, FoundOk, AllExtended, Usable, Tail, Head;
    if |p| == 0 {
      FoundAtSource(g, source, distance, frontier, found);
      assert p == [];
    } else {
      var a, q := p[|p| - 1], p[..|p| - 1];
      LastLink(g, false, source, p, v);
      UsableEnds(g, false, a);
      hide IsPath;
      var u := Tail(g, a);
      StepBack(g, source, distance, u, q, a);
      FindsAll(g, source, distance, frontier, found, u, q);
      ExtendsTo(g, source, distance, frontier, found, q, a);
      assert q + [a] == p;
    }
  }

  lemma FoundAtSource(g: Graph, source: NodeId, distance: Distances, frontier: seq<NodeId>, found: Found)
    requires FoundOk(g, source, distance, frontier, |frontier|, 0, found)
    ensures source in found && [] in found[source]
  {
  }

  lemma ExtendsTo(g: Graph, source: NodeId, distance: Distances, frontier: seq<NodeId>, found: Found, q: Path,
                  a: DirectedLinkId)
    requires SearchOk(g, false, source, distance, frontier, |frontier|)
    requires FoundOk(g, source, distance, frontier, |frontier|, 0, found)
             && AllExtended(g, distance, frontier, |frontier|, 0, found)
    requires Usable(g, false, a) && Tail(g, a) in distance && Tail(g, a) in found && q in found[Tail(g, a)]
    requires Head(g, a) in distance && distance[Head(g, a)] == distance[Tail(g, a)] + 1
    ensures Head(g, a) in found && q + [a] in found[Head(g, a)]
  {
    hide Near, Realised, Expanded, IsPath, Operational;
    var i :| 0 <= i < |frontier| && frontier[i] == Tail(g, a);
    assert Past(g, frontier, |frontier|, 0, a);
    assert Extended(g, distance, found, a);
  }

  /** Before its last link, a shortest path is a shortest path. */
  lemma StepBack(g: Graph, source: NodeId, distance: Distances, u: NodeId, q: Path, a: DirectedLinkId)
    requires DistancesOk(g, false, source, distance) && IsPath(g, false, source, q, u)
    requires Usable(g, false, a) && Tail(g, a) == u && Head(g, a) in distance && distance[Head(g, a)] == |q| + 1
    ensures u in distance && distance[u] == |q|
  {
    hide IsPath, Operational, Reverse;
    var back := ReversePath(g, false, source, q, u);
    assert IsDistance(g, false, u, source, distance[u]);
    var p :| IsPath(g, false, u, p, source) && |p| == distance[u];
    BackAlong(g, false, a, p, source);
    assert IsDistance(g, false, Head(g, a), source, distance[Head(g, a)]);
  }

  lemma FoundIsAll(g: Graph, source: NodeId, distance: Distances, frontier: seq<NodeId>, found: Found, v: NodeId)
    requires AdjacencyOk(g) && SearchOk(g, false, source, distance, frontier, |frontier|)
    requires FoundOk(g, source, distance, frontier, |frontier|, 0, found)
             && AllExtended(g, distance, frontier, |frontier|, 0, found)
    requires v in distance
    ensures v in found && IsAll(g, source, v, found[v]) && IsDistance(g, false, source, v, distance[v])
  {
    hide AdjacencyOk, SearchOk, IsPath, AllExtended;
    SearchDone(g, false, source, distance, frontier);
    DistanceBack(g, v, source, distance[v]);
    forall p ensures p in found[v] <==> Shortest(g, false, source, p, v) {
      if Shortest(g, false, source, p, v) {
        FindsAll(g, source, distance, frontier, found, v, p);
      }
    }
  }

  lemma NotFound(g: Graph, source: NodeId, distance: Distances, frontier: seq<NodeId>, v: NodeId)
    requires AdjacencyOk(g) && SearchOk(g, false, source, distance, frontier, |frontier|) && v !in distance
    ensures forall p :: !IsPath(g, false, source, p, v)
  {
    hide AdjacencyOk, SearchOk, IsPath;
    SearchDone(g, false, source, distance, frontier);
    forall p ensures !IsPath(g, false, source, p, v) {
      if IsPath(g, false, source, p, v) {
        var q := ReversePath(g, false, source, p, v);
      }
    }
  }

  // The method

  /** What a summary says about two nodes of the graph. */
  ghost predicate Describes(g: Graph, source: NodeId, destination: NodeId, s: Option<Summary>) {
    if s == None then
      !NodeUp(g, source) || !NodeUp(g, destination) || forall p :: !IsPath(g, false, source, p, destination)
    else
      && NodeUp(g, source) && NodeUp(g, destination)
      && IsDistance(g, false, source, destination, s.value.hops)
      && exists all :: IsAll(g, source, destination, all) && |all| == s.value.pathCount
  }

  /** Some node has more shortest paths from the source than 64 bits can count. */
  ghost predicate TooMany(g: Graph, source: NodeId) {
    exists v, some :: AllShortest(g, source, v, some) && |some| > U64_MAX
  }

  ghost predicate AllShortest(g: Graph, source: NodeId, v: NodeId, some: set<Path>) {
    forall p :: p in some ==> Shortest(g, false, source, p, v)
  }

  /** The paths found and those about to be added are all shortest, so a count that overflows counts too many. */
  lemma Overflows(g: Graph, source: NodeId, distance: Distances, frontier: seq<NodeId>, cursor: nat, k: nat,
                  found: Found,
                  counts: Counts, v: NodeId)
    requires Follows(g, source, distance, frontier, cursor, k, v)
             && TallyOk(g, source, distance, frontier, cursor, k, found, counts)
    requires v in distance && v in counts && frontier[cursor] in counts
             && counts[v] + counts[frontier[cursor]] > U64_MAX
    ensures TooMany(g, source)
  {
    hide AdjacencyOk, IsPath, Operational, Past, AllExtended, Followed, Near, Realised, Expanded;
    var node := frontier[cursor];
    var a := Arcs(g, node)[k].id;
    FinalEarly(g, false, source, distance, frontier, cursor, v);
    DistanceBack(g, v, source, distance[v]);
    AddsFound(g, source, distance, frontier, cursor, k, found, v, distance[v := distance[node] + 1], frontier);
    var more := Onward(found[node], a);
    OnwardSize(found[node], a);
    ListsAt(g, source, distance, frontier, cursor);
    NotPast(g, source, distance, frontier, cursor, k);
    NewPaths(g, source, distance, frontier, cursor, k, found, a, v, found[node]);
    hide FrontierOk, Onward;
    assert AllShortest(g, source, v, found[v] + more);
  }

  /** `shortest_path_summary`; it throws only if some node has more shortest paths than 64 bits can count. */
  method ShortestPathSummary(g: Graph, source: NodeId, destination: NodeId) returns (r: Result<Option<Summary>>)
    requires AdjacencyOk(g)
    ensures r.Throw? && r.error == InvalidArgument <==> !Contains(g, source) || !Contains(g, destination)
    ensures r.Throw? && r.error != InvalidArgument ==> r.error == OverflowError && TooMany(g, source)
    ensures r.Ok? ==> Describes(g, source, destination, r.value)
  {
    hide AdjacencyOk, SearchOk, TallyOk, Followed, Operational, IsAll, IsDistance;
    if !Contains(g, source) || !Contains(g, destination) {
      return Throw(InvalidArgument);
    }
    if !NodeUp(g, source) || !NodeUp(g, destination) {
      return Ok(None);
    }
    var hops, counts := map[source := 0], map[source := 1];
    var pending := [source];
    ghost var frontier, cursor, found := [source], 0, map[source := {[]}];
    SearchStarts(g, false, source);
    TallyStarts(g, source);
    while pending != []
      invariant cursor <= |frontier| && pending == frontier[cursor..]
      invariant SearchOk(g, false, source, hops, frontier, cursor)
                && TallyOk(g, source, hops, frontier, cursor, 0, found, counts)
      decreases |NodeSet(g)| - cursor
    {
      var node := pending[0];
      pending := pending[1..];
      Bound(g, source, hops, frontier, cursor);
      var expanded;
      expanded, hops, counts, pending, frontier, found := CountNode(g, source, node, hops, counts, pending, frontier,
                                                                    cursor, found);
      if !expanded {
        return Throw(OverflowError);
      }
      NodeDone(g, source, hops, frontier, cursor, found, counts);
      cursor := cursor + 1;
    }
    if destination !in hops {
      NotFound(g, source, hops, frontier, destination);
      return Ok(None);
    }
    Summarised(g, source, hops, frontier, found, counts, destination);
    return Ok(Some(Summary(hops[destination], counts[destination])));
  }

  /** Every usable link of one node is followed; the node's own count is final by now. */
  method CountNode(g: Graph, source: NodeId, node: NodeId, hops: Distances, counts: Counts, pending: seq<NodeId>,
                   ghost frontier: seq<NodeId>, ghost cursor: nat, ghost found: Found)
    returns (ok: bool, hops': Distances, counts': Counts, pending': seq<NodeId>, ghost frontier': seq<NodeId>,
             ghost found': Found)
    requires AdjacencyOk(g) && cursor < |frontier| && frontier[cursor] == node && pending == frontier[cursor + 1..]
    requires SearchOk(g, false, source, hops, frontier, cursor)
             && TallyOk(g, source, hops, frontier, cursor, 0, found, counts)
    ensures !ok ==> TooMany(g, source)
    ensures ok ==> cursor < |frontier'| && pending' == frontier'[cursor + 1..]
                   && SearchOk(g, false, source, hops', frontier', cursor)
    ensures ok ==> Followed(g, false, hops', frontier'[cursor], |Arcs(g, frontier'[cursor])|)
                   && TallyOk(g, source, hops', frontier', cursor, |Arcs(g, frontier'[cursor])|, found', counts')
  {
    hide AdjacencyOk, SearchOk, TallyOk, Followed, Operational, With, Onward;
    hops', counts', pending', frontier', found' := hops, counts, pending, frontier, found;
    TallyFacts(g, source, hops, frontier, cursor, 0, found, counts);
    var current := Summary(hops[node], counts[node]);
    var arcs := Arcs(g, node);
    NoneFollowedYet(g, hops, node);
    for k := 0 to |arcs|
      invariant cursor < |frontier'| && frontier'[cursor] == node && pending' == frontier'[cursor + 1..]
      invariant SearchOk(g, false, source, hops', frontier', cursor) && Followed(g, false, hops', node, k)
      invariant TallyOk(g, source, hops', frontier', cursor, k, found', counts')
      invariant node in hops' && node in counts' && hops'[node] == current.hops && counts'[node] == current.pathCount
    {
      LinkFacts(g, source, hops', frontier', cursor, k);
      TallyFacts(g, source, hops', frontier', cursor, k, found', counts');
      var arc := arcs[k];
      if Operational(g, arc) {
        var next := g.ports[arc.destination].owner;
        if next !in hops' {
          TallyFollows(g, source, hops', frontier', cursor, k, found', counts', next, hops'[next := current.hops + 1],
                       frontier' + [next]);
          Discovers(g, false, source, hops', frontier', cursor, arc.id, k);
          found' := With(found', next, Onward(found'[node], arc.id));
          hops', counts' := hops'[next := current.hops + 1], counts'[next := current.pathCount];
          pending', frontier' := pending' + [next], frontier' + [next];
        } else if hops'[next] == current.hops + 1 {
          if counts'[next] + current.pathCount > U64_MAX {
            Overflows(g, source, hops', frontier', cursor, k, found', counts', next);
            ok := false;
            return;
          }
          assert hops'[next := current.hops + 1] == hops';
          TallyFollows(g, source, hops', frontier', cursor, k, found', counts', next, hops', frontier');
          found' := With(found', next, Onward(found'[node], arc.id));
          counts' := counts'[next := counts'[next] + current.pathCount];
        } else {
          TallySkips(g, source, hops', frontier', cursor, k, found', counts');
        }
      } else {
        TallySkips(g, source, hops', frontier', cursor, k, found', counts');
      }
      FollowsOne(g, false, source, hops', frontier', cursor, k);
    }
    ok := true;
  }

  lemma NoneFollowedYet(g: Graph, distance: Distances, v: NodeId)
    ensures Followed(g, false, distance, v, 0)
  {
  }

  lemma TallyFacts(g: Graph, source: NodeId, distance: Distances, frontier: seq<NodeId>, cursor: nat, k: nat,
                   found: Found, counts: Counts)
    requires SearchOk(g, false, source, distance, frontier, cursor) && cursor < |frontier|
    requires TallyOk(g, source, distance, frontier, cursor, k, found, counts)
    ensures forall v :: v in distance <==> v in counts
    ensures forall v :: v in distance <==> v in found
    ensures frontier[cursor] in distance
  {
    hide IsPath, Near, Realised, Expanded, Past;
  }

  lemma LinkFacts(g: Graph, root: NodeId, distance: Distances, frontier: seq<NodeId>, cursor: nat, k: nat)
    requires AdjacencyOk(g) && SearchOk(g, false, root, distance, frontier, cursor) && cursor < |frontier|
    requires k < |Arcs(g, frontier[cursor])|
    ensures var arc := Arcs(g, frontier[cursor])[k];
            Known(g, arc.id) && arc == ArcOf(g, arc.id) && Tail(g, arc.id) == frontier[cursor]
  {
    hide Near, Realised, Expanded;
    assert ListsArcs(g, frontier[cursor]);
  }

  lemma Bound(g: Graph, root: NodeId, distance: Distances, frontier: seq<NodeId>, cursor: nat)
    requires SearchOk(g, false, root, distance, frontier, cursor) && cursor < |frontier|
    ensures cursor < |NodeSet(g)|
  {
    hide Near, Realised, Expanded;
    FrontierBound(g, root, distance, frontier);
  }

  lemma NodeDone(g: Graph, source: NodeId, distance: Distances, frontier: seq<NodeId>, cursor: nat, found: Found,
                 counts: Counts)
    requires AdjacencyOk(g) && cursor < |frontier| && SearchOk(g, false, source, distance, frontier, cursor)
    requires Followed(g, false, distance, frontier[cursor], |Arcs(g, frontier[cursor])|)
    requires TallyOk(g, source, distance, frontier, cursor, |Arcs(g, frontier[cursor])|, found, counts)
    ensures SearchOk(g, false, source, distance, frontier, cursor + 1)
            && TallyOk(g, source, distance, frontier, cursor + 1, 0, found, counts)
  {
    hide AdjacencyOk, TallyOk, Followed, Near, Realised, Expanded;
    Advances(g, false, source, distance, frontier, cursor);
    TallyAdvances(g, source, distance, frontier, cursor, found, counts);
  }

  lemma Summarised(g: Graph, source: NodeId, distance: Distances, frontier: seq<NodeId>, found: Found, counts: Counts,
                   v: NodeId)
    requires AdjacencyOk(g) && SearchOk(g, false, source, distance, frontier, |frontier|) && v in distance
    requires TallyOk(g, source, distance, frontier, |frontier|, 0, found, counts)
    ensures v in counts && IsDistance(g, false, source, v, distance[v])
    ensures exists all :: IsAll(g, source, v, all) && |all| == counts[v]
  {
    hide AdjacencyOk, SearchOk, AllExtended, IsPath, Past, IsAll, IsDistance;
    FoundIsAll(g, source, distance, frontier, found, v);
  }

  // Agreement with enumeration

  lemma {:induction false} ElementsSize(paths: seq<Path>, all: set<Path>)
    requires Ascending(paths) && forall p :: p in all <==> p in paths
    ensures |paths| == |all|
    decreases |paths|
  {
    hide PathLess;
    if paths == [] {
      assert all == {};
    } else {
      forall p ensures p in all - {paths[0]} <==> p in paths[1..] {
        RestHas(paths, p);
      }
      assert paths[0] in all;
      ElementsSize(paths[1..], all - {paths[0]});
    }
  }

  /** The counter, which may cross GPU attachments, counts exactly the paths that enumeration lists. */
  lemma CountIsEnumerated(g: Graph, e: Endpoints, paths: seq<Path>, s: Summary)
    requires KindsOk(g) && Routable(g, e.source) && Routable(g, e.destination)
    requires IsAnswer(g, e, paths) && Describes(g, e.source, e.destination, Some(s))
    ensures s.pathCount == |paths|
    ensures forall i :: 0 <= i < |paths| ==> |paths[i]| == s.hops
  {
    hide KindsOk, IsPath, Ascending;
    var all :| IsAll(g, e.source, e.destination, all) && |all| == s.pathCount;
    forall p ensures p in all <==> p in paths {
      ShortestOnFabric(g, e.source, p, e.destination);
    }
    ElementsSize(paths, all);
    forall i | 0 <= i < |paths| ensures |paths[i]| == s.hops {
      assert paths[i] in all;
    }
  }

  /** Where the counter finds no path, enumeration lists none. */
  lemma NoneIsEnumerated(g: Graph, e: Endpoints, paths: seq<Path>)
    requires IsAnswer(g, e, paths) && Describes(g, e.source, e.destination, None) && NodeUp(g, e.source)
             && NodeUp(g, e.destination)
    ensures paths == []
  {
    hide IsPath, Ascending;
    if paths != [] {
      assert paths[0] in paths;
      FabricIsAny(g, e.source, paths[0], e.destination);
    }
  }
}
