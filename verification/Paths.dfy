/** Shortest-path enumeration and the path cache of `simulator/src/routing/paths.cpp`. */
module Paths {
  import opened Prelude
  import opened Events
  import opened Topology
  import opened Sorting
  import opened Routes
  import opened Search
  import opened Walks

  datatype PathLimits = PathLimits(
    maximumPaths: nat, maximumHops: nat, maximumCachedPairs: nat, maximumCachedRouteEntries: nat)

  datatype Endpoints = Endpoints(source: NodeId, destination: NodeId)

  // The order of paths

  function Ordinal(d: LinkDirection): nat {
    if d == AToB then 0 else 1
  }

  predicate ArcLess(a: DirectedLinkId, b: DirectedLinkId) {
    a.link < b.link || (a.link == b.link && Ordinal(a.direction) < Ordinal(b.direction))
  }

  /** Lexicographic order of `std::vector`. */
  predicate PathLess(a: Path, b: Path) {
    |b| > 0 && (|a| == 0 || ArcLess(a[0], b[0]) || (a[0] == b[0] && PathLess(a[1..], b[1..])))
  }

  lemma {:induction false} PathLessAsymmetric(a: Path, b: Path)
    ensures PathLess(a, b) ==> !PathLess(b, a)
    decreases |a|
  {
    if |a| > 0 && |b| > 0 {
      PathLessAsymmetric(a[1..], b[1..]);
    }
  }

  lemma {:induction false} PathLessNegative(a: Path, b: Path, c: Path)
    ensures !PathLess(b, a) && !PathLess(c, b) ==> !PathLess(c, a)
    decreases |a|
  {
    if |a| > 0 && |b| > 0 && |c| > 0 {
      PathLessNegative(a[1..], b[1..], c[1..]);
    }
  }

  lemma {:induction false} PathLessTotal(a: Path, b: Path)
    ensures PathLess(a, b) || PathLess(b, a) || a == b
    decreases |a|
  {
    if |a| > 0 && |b| > 0 {
      PathLessTotal(a[1..], b[1..]);
      assert a == [a[0]] + a[1..] && b == [b[0]] + b[1..];
    }
  }

  lemma PathOrder()
    ensures StrictWeakOrder((a: Path, b: Path) => PathLess(a, b))
  {
    hide PathLess;
    forall a: Path, b: Path ensures PathLess(a, b) ==> !PathLess(b, a) {
      PathLessAsymmetric(a, b);
    }
    forall a: Path, b: Path, c: Path ensures !PathLess(b, a) && !PathLess(c, b) ==> !PathLess(c, a) {
      PathLessNegative(a, b, c);
    }
  }

  // What enumeration returns

  ghost predicate Ascending(paths: seq<Path>) {
    forall i, k :: 0 <= i < k < |paths| ==> PathLess(paths[i], paths[k])
  }

  /** Exactly the minimum-hop operational fabric paths between two nodes, in order and each once. */
  ghost predicate IsAnswer(g: Graph, e: Endpoints, paths: seq<Path>) {
    && Ascending(paths)
    && forall p :: p in paths <==> Shortest(g, true, e.source, p, e.destination)
  }

  /** Two ascending sequences with the same elements are the same. */
  lemma {:induction false} AscendingUnique(a: seq<Path>, b: seq<Path>)
    requires Ascending(a) && Ascending(b) && forall p :: p in a <==> p in b
    ensures a == b
    decreases |a|
  {
    hide PathLess;
    EmptyTogether(a, b);
    if a != [] && b != [] {
      FirstSame(a, b);
      forall p ensures p in a[1..] <==> p in b[1..] {
        RestHas(a, p);
        RestHas(b, p);
      }
      AscendingUnique(a[1..], b[1..]);
      assert a == [a[0]] + a[1..] && b == [b[0]] + b[1..];
    }
  }

  lemma EmptyTogether(a: seq<Path>, b: seq<Path>)
    requires forall p :: p in a <==> p in b
    ensures a == [] <==> b == []
  {
    if a != [] {
      assert a[0] in a;
    }
    if b != [] {
      assert b[0] in b;
    }
  }

  lemma FirstSame(a: seq<Path>, b: seq<Path>)
    requires Ascending(a) && Ascending(b) && a != [] && b != [] && forall p :: p in a <==> p in b
    ensures a[0] == b[0]
  {
    hide PathLess;
    assert a[0] in b && b[0] in a;
    var i :| 0 <= i < |b| && b[i] == a[0];
    var k :| 0 <= k < |a| && a[k] == b[0];
    PathLessAsymmetric(a[0], b[0]);
  }

  lemma RestHas(a: seq<Path>, p: Path)
    requires Ascending(a) && a != []
    ensures p in a[1..] <==> p in a && p != a[0]
  {
    hide PathLess;
    PathLessAsymmetric(a[0], a[0]);
    if p in a && p != a[0] {
      var i :| 0 <= i < |a| && a[i] == p;
      assert a[1..][i - 1] == p;
    }
  }

  /** There is only one answer, so whoever computes it computes the same. */
  lemma AnswerUnique(g: Graph, e: Endpoints, a: seq<Path>, b: seq<Path>)
    requires IsAnswer(g, e, a) && IsAnswer(g, e, b)
    ensures a == b
  {
    hide Shortest, Ascending;
    AscendingUnique(a, b);
  }

  /** How many paths of this length the limits allow. */
  function Capacity(limits: PathLimits, hops: nat): nat
    requires hops > 0
  {
    var entries := limits.maximumCachedRouteEntries / hops;
    if limits.maximumPaths < entries then limits.maximumPaths else entries
  }

  // Enumeration

  /** `index` accepts known NICs and switches. */
  predicate Routable(g: Graph, node: NodeId) {
    !node.Gpu? && Contains(g, node)
  }

  /** The breadth-first search of `enumerate`, from the destination. */
  method MeasureDistances(g: Graph, destination: NodeId) returns (distance: Distances)
    requires AdjacencyOk(g) && Contains(g, destination)
    ensures DistancesOk(g, true, destination, distance)
  {
    hide SearchOk, Followed, AdjacencyOk, DistancesOk, Operational;
    distance := map[destination := 0];
    var frontier := [destination];
    SearchStarts(g, true, destination);
    var cursor := 0;
    while cursor < |frontier|
      invariant cursor <= |frontier| && SearchOk(g, true, destination, distance, frontier, cursor)
      decreases |NodeSet(g)| - cursor
    {
      SearchBound(g, destination, distance, frontier, cursor);
      distance, frontier := ExpandNode(g, destination, distance, frontier, cursor);
      Advances(g, true, destination, distance, frontier, cursor);
      cursor := cursor + 1;
    }
    SearchDone(g, true, destination, distance, frontier);
  }

  lemma SearchBound(g: Graph, root: NodeId, distance: Distances, frontier: seq<NodeId>, cursor: nat)
    requires SearchOk(g, true, root, distance, frontier, cursor) && cursor < |frontier|
    ensures cursor < |NodeSet(g)|
  {
    hide Near, Realised, Expanded;
    FrontierBound(g, root, distance, frontier);
  }

  /** All usable fabric links of one node are followed. */
  method ExpandNode(g: Graph, destination: NodeId, distance: Distances, frontier: seq<NodeId>, cursor: nat)
    returns (distance': Distances, frontier': seq<NodeId>)
    requires AdjacencyOk(g) && cursor < |frontier| && SearchOk(g, true, destination, distance, frontier, cursor)
    ensures cursor < |frontier'| && SearchOk(g, true, destination, distance', frontier', cursor)
    ensures Followed(g, true, distance', frontier'[cursor], |Arcs(g, frontier'[cursor])|)
  {
    hide SearchOk, Followed, AdjacencyOk, Operational;
    var node := frontier[cursor];
    distance', frontier' := distance, frontier;
    var arcs := Arcs(g, node);
    NoneFollowed(g, distance, node);
    for k := 0 to |arcs|
      invariant cursor < |frontier'| && frontier'[cursor] == node
      invariant SearchOk(g, true, destination, distance', frontier', cursor) && Followed(g, true, distance', node, k)
    {
      ArcFacts(g, destination, distance', frontier', cursor, k);
      var arc := arcs[k];
      if g.links[arc.id.link].kind == FabricLink && Operational(g, arc) {
        var neighbor := g.ports[arc.destination].owner;
        if neighbor !in distance' {
          Discovers(g, true, destination, distance', frontier', cursor, arc.id, k);
          distance' := distance'[neighbor := distance'[node] + 1];
          frontier' := frontier' + [neighbor];
        }
      }
      FollowsOne(g, true, destination, distance', frontier', cursor, k);
    }
  }

  lemma NoneFollowed(g: Graph, distance: Distances, v: NodeId)
    ensures Followed(g, true, distance, v, 0)
  {
  }

  lemma ArcFacts(g: Graph, root: NodeId, distance: Distances, frontier: seq<NodeId>, cursor: nat, k: nat)
    requires AdjacencyOk(g) && SearchOk(g, true, root, distance, frontier, cursor) && cursor < |frontier|
    requires k < |Arcs(g, frontier[cursor])|
    ensures frontier[cursor] in distance
    ensures var arc := Arcs(g, frontier[cursor])[k];
            Known(g, arc.id) && arc == ArcOf(g, arc.id) && Tail(g, arc.id) == frontier[cursor]
  {
    hide Near, Realised, Expanded;
    assert ListsArcs(g, frontier[cursor]);
  }

  /** `walk`, which pushes and pops one shared path. */
  class Walker {
    var path: Path
    var result: seq<Path>

    constructor ()
      ensures path == [] && result == []
    {
      path, result := [], [];
    }

    /** Every way down from a node is appended to the result, or the limits do not allow as many. */
    method Walk(g: Graph, limits: PathLimits, root: NodeId, node: NodeId, distance: Distances, ghost hops: nat)
      returns (ok: bool)
      requires AdjacencyOk(g) && DistancesOk(g, true, root, distance) && node in distance
      requires |path| + distance[node] == hops > 0 && |result| <= Capacity(limits, hops)
      modifies this
      ensures ok <==> |old(result)| + |WaysFrom(g, distance, node)| <= Capacity(limits, hops)
      ensures ok ==> path == old(path) && result == old(result) + Prefixed(path, WaysFrom(g, distance, node))
      decreases distance[node], 1, 0
    {
      hide AdjacencyOk, DistancesOk, Operational, WaysVia;
      if distance[node] == 0 {
        if |result| == limits.maximumPaths || |result| >= limits.maximumCachedRouteEntries / |path| {
          return false;
        }
        result := result + [path];
        assert Prefixed(path, [[]]) == [path] by {
          assert path + [] == path;
        }
        return true;
      }
      ok := WalkLinks(g, limits, root, node, distance, hops);
    }

    /** The loop of `walk` over the links of one node. */
    method WalkLinks(g: Graph, limits: PathLimits, root: NodeId, node: NodeId, distance: Distances, ghost hops: nat)
      returns (ok: bool)
      requires AdjacencyOk(g) && DistancesOk(g, true, root, distance) && node in distance
      requires |path| + distance[node] == hops > 0 && |result| <= Capacity(limits, hops)
      modifies this
      ensures ok <==> |old(result)| + |WaysVia(g, distance, node, 0)| <= Capacity(limits, hops)
      ensures ok ==> path == old(path) && result == old(result) + Prefixed(path, WaysVia(g, distance, node, 0))
      decreases distance[node], 0, 0
    {
      hide AdjacencyOk, DistancesOk, Operational, WaysVia, WaysFrom, Capacity, Closer, Arcs;
      var arcs := Arcs(g, node);
      ghost var ways := WaysVia(g, distance, node, 0);
      ghost var done: seq<Path> := [];
      assert [] + ways == ways;
      assert result + Prefixed(path, done) == result;
      for k := 0 to |arcs|
        invariant path == old(path) && ways == done + WaysVia(g, distance, node, k)
        invariant result == old(result) + Prefixed(path, done) && |result| <= Capacity(limits, hops)
      {
        ListedArc(g, root, distance, node, k);
        ViaStep(g, distance, node, k);
        var arc := arcs[k];
        if Closer(g, distance, node, arc) {
          CloserByOne(g, root, distance, node, arc);
          path := path + [arc.id];
          ghost var below := WaysFrom(g, distance, Head(g, arc.id));
          ghost var rest := WaysVia(g, distance, node, k + 1);
          assert ways == (done + Prefixed([arc.id], below)) + rest;
          ok := Walk(g, limits, root, Head(g, arc.id), distance, hops);
          if !ok {
            return false;
          }
          path := path[..|path| - 1];
          PrefixedSplit(path, done, Prefixed([arc.id], below));
          PrefixedTwice(path, arc.id, below);
          done := done + Prefixed([arc.id], below);
        }
      }
      ViaNone(g, distance, node);
      assert done + [] == done;
      return true;
    }
  }

  lemma ViaStep(g: Graph, distance: Distances, node: NodeId, i: nat)
    requires node in distance && i < |Arcs(g, node)|
    ensures var arc := Arcs(g, node)[i];
            WaysVia(g, distance, node, i) ==
            (if Closer(g, distance, node, arc) then Prefixed([arc.id], WaysFrom(g, distance, Head(g, arc.id))) else [])
            + WaysVia(g, distance, node, i + 1)
    ensures !Closer(g, distance, node, Arcs(g, node)[i]) ==>
              WaysVia(g, distance, node, i) == WaysVia(g, distance, node, i + 1)
  {
  }

  lemma ViaNone(g: Graph, distance: Distances, node: NodeId)
    requires node in distance
    ensures WaysVia(g, distance, node, |Arcs(g, node)|) == []
  {
  }

  // Sorting what was walked

  /** The ways down from the source, sorted, are the answer. */
  lemma SortedWays(g: Graph, e: Endpoints, distance: Distances)
    requires AdjacencyOk(g) && DistancesOk(g, true, e.destination, distance) && e.source in distance
    ensures IsAnswer(g, e, Sort(WaysFrom(g, distance, e.source), (a: Path, b: Path) => PathLess(a, b)))
    ensures |Sort(WaysFrom(g, distance, e.source), (a: Path, b: Path) => PathLess(a, b))|
            == |WaysFrom(g, distance, e.source)|
    ensures forall i :: 0 <= i < |WaysFrom(g, distance, e.source)| ==>
              |WaysFrom(g, distance, e.source)[i]| == distance[e.source]
  {
    var ways, less := WaysFrom(g, distance, e.source), (a: Path, b: Path) => PathLess(a, b);
    var sorted := Sort(ways, less);
    SortPermutes(ways, less);
    PathOrder();
    SortOrders(ways, less);
    WaysDiffer(g, e.destination, distance, e.source);
    SortedAscends(ways, sorted);
    forall p ensures p in sorted <==> Shortest(g, true, e.source, p, e.destination) {
      assert p in sorted <==> p in multiset(ways);
      ShortestIsWay(g, e, distance, p);
    }
    forall i | 0 <= i < |ways| ensures |ways[i]| == distance[e.source] {
      WaysArePaths(g, e.destination, distance, e.source, i);
    }
  }

  lemma ShortestIsWay(g: Graph, e: Endpoints, distance: Distances, p: Path)
    requires AdjacencyOk(g) && DistancesOk(g, true, e.destination, distance) && e.source in distance
    ensures p in WaysFrom(g, distance, e.source) <==> Shortest(g, true, e.source, p, e.destination)
  {
    hide AdjacencyOk, WaysFrom, IsPath;
    var ways := WaysFrom(g, distance, e.source);
    assert IsDistance(g, true, e.source, e.destination, distance[e.source]);
    if p in ways {
      var k :| 0 <= k < |ways| && ways[k] == p;
      WaysArePaths(g, e.destination, distance, e.source, k);
    }
    if Shortest(g, true, e.source, p, e.destination) {
      PathsAreWays(g, e.destination, distance, e.source, p);
    }
  }

  lemma {:induction false} CountsOnce(s: seq<Path>, p: Path)
    requires Distinct(s)
    ensures multiset(s)[p] <= 1
  {
    if s != [] {
      var last := |s| - 1;
      CountsOnce(s[..last], p);
      assert s == s[..last] + [s[last]];
      if s[last] == p {
        assert p !in s[..last];
      }
    }
  }

  lemma SortedAscends(ways: seq<Path>, sorted: seq<Path>)
    requires Distinct(ways) && multiset(sorted) == multiset(ways)
             && Ordered(sorted, (a: Path, b: Path) => PathLess(a, b))
    ensures Ascending(sorted)
  {
    hide PathLess;
    forall i, k | 0 <= i < k < |sorted| ensures PathLess(sorted[i], sorted[k]) {
      CountsOnce(ways, sorted[i]);
      assert sorted == sorted[..k] + sorted[k..];
      assert sorted[i] == sorted[..k][i] && sorted[k] == sorted[k..][0];
      assert sorted[i] in multiset(sorted[..k]) && sorted[k] in multiset(sorted[k..]);
      assert sorted[i] != sorted[k];
      PathLessTotal(sorted[i], sorted[k]);
    }
  }

  /** Why `enumerate` may give up: too far, or too many paths. */
  ghost predicate BeyondLimits(g: Graph, limits: PathLimits, e: Endpoints) {
    exists hops: nat, all: seq<Path> ::
      && IsDistance(g, true, e.source, e.destination, hops) && IsAnswer(g, e, all) && hops > 0
      && (hops > limits.maximumHops || |all| > Capacity(limits, hops))
  }

  ghost function EntriesOf(paths: seq<Path>): nat {
    if |paths| == 0 then 0 else EntriesOf(paths[..|paths| - 1]) + |paths[|paths| - 1]|
  }

  lemma {:induction false} UniformEntries(paths: seq<Path>, hops: nat)
    requires forall i :: 0 <= i < |paths| ==> |paths[i]| == hops
    ensures EntriesOf(paths) == |paths| * hops
  {
    if |paths| > 0 {
      UniformEntries(paths[..|paths| - 1], hops);
      assert |paths| * hops == (|paths| - 1) * hops + hops;
    }
  }

  lemma WithinEntries(limits: PathLimits, count: nat, hops: nat)
    requires hops > 0 && count <= Capacity(limits, hops)
    ensures count * hops <= limits.maximumCachedRouteEntries
  {
    Scale(count, limits.maximumCachedRouteEntries / hops, hops);
  }

  /** `enumerate`. */
  method Enumerate(g: Graph, limits: PathLimits, e: Endpoints) returns (r: Result<seq<Path>>)
    requires AdjacencyOk(g)
    ensures r.Throw? && r.error == InvalidArgument <==>
            !Routable(g, e.source) || !Routable(g, e.destination) || e.source == e.destination
    ensures r.Throw? && r.error != InvalidArgument ==> r.error == LengthError && BeyondLimits(g, limits, e)
    ensures r.Ok? ==> IsAnswer(g, e, r.value) && EntriesOf(r.value) <= limits.maximumCachedRouteEntries
    ensures r.Ok? ==> !BeyondLimits(g, limits, e)
    ensures r.Ok? ==> forall i :: 0 <= i < |r.value| ==> 0 < |r.value[i]| <= limits.maximumHops
  {
    hide AdjacencyOk, DistancesOk, IsAnswer, WaysFrom, Capacity, PathLess, BeyondLimits;
    if !Routable(g, e.source) || !Routable(g, e.destination) || e.source == e.destination {
      return Throw(InvalidArgument);
    }
    var distance := MeasureDistances(g, e.destination);
    if e.source !in distance {
      Unreachable(g, e, distance);
      return Ok([]);
    }
    SourceIsFar(g, e, distance);
    SortedWays(g, e, distance);
    ghost var hops := distance[e.source];
    var less := (a: Path, b: Path) => PathLess(a, b);
    LimitsDecide(g, limits, e, hops, Sort(WaysFrom(g, distance, e.source), less));
    if distance[e.source] > limits.maximumHops {
      return Throw(LengthError);
    }
    var walker := new Walker();
    var ok := walker.Walk(g, limits, e.destination, e.source, distance, hops);
    if !ok {
      return Throw(LengthError);
    }
    NoPrefix(WaysFrom(g, distance, e.source));
    var paths := Sort(walker.result, less);
    SortPermutes(walker.result, less);
    forall i | 0 <= i < |paths| ensures |paths[i]| == hops {
      assert paths[i] in multiset(walker.result);
    }
    UniformEntries(paths, hops);
    WithinEntries(limits, |paths|, hops);
    return Ok(paths);
  }

  lemma NoPrefix(ways: seq<Path>)
    ensures [] + Prefixed([], ways) == ways
  {
    forall i | 0 <= i < |ways| ensures [] + ways[i] == ways[i] {
    }
  }

  lemma Unreachable(g: Graph, e: Endpoints, distance: Distances)
    requires DistancesOk(g, true, e.destination, distance) && e.source !in distance
    ensures IsAnswer(g, e, []) && forall limits :: !BeyondLimits(g, limits, e)
  {
    hide IsPath;
  }

  /** Distance and answer are unique, so they decide whether the limits are kept. */
  lemma LimitsDecide(g: Graph, limits: PathLimits, e: Endpoints, hops: nat, all: seq<Path>)
    requires IsDistance(g, true, e.source, e.destination, hops) && IsAnswer(g, e, all) && hops > 0
    ensures BeyondLimits(g, limits, e) <==> hops > limits.maximumHops || |all| > Capacity(limits, hops)
  {
    hide IsDistance, IsAnswer;
    if BeyondLimits(g, limits, e) {
      var h: nat, a: seq<Path> :|
        && IsDistance(g, true, e.source, e.destination, h) && IsAnswer(g, e, a) && h > 0
        && (h > limits.maximumHops || |a| > Capacity(limits, h));
      DistanceUnique(g, true, e.source, e.destination, h, hops);
      AnswerUnique(g, e, a, all);
    }
  }

  lemma SourceIsFar(g: Graph, e: Endpoints, distance: Distances)
    requires DistancesOk(g, true, e.destination, distance) && e.source in distance && e.source != e.destination
    ensures distance[e.source] > 0 && IsDistance(g, true, e.source, e.destination, distance[e.source])
  {
    if distance[e.source] == 0 {
      AtRoot(g, e.destination, distance, e.source);
    }
  }

  // The cache

  type Cache = map<Endpoints, seq<Path>>

  ghost function Entries(order: seq<Endpoints>, cache: Cache): nat
    requires forall i :: 0 <= i < |order| ==> order[i] in cache
  {
    if |order| == 0 then 0 else Entries(order[1..], cache) + EntriesOf(cache[order[0]])
  }

  ghost function Count(order: seq<Endpoints>, cache: Cache): nat
    requires forall i :: 0 <= i < |order| ==> order[i] in cache
  {
    if |order| == 0 then 0 else Count(order[1..], cache) + |cache[order[0]]|
  }

  /** The order queue lists the cached pairs, each once. */
  ghost predicate OrderOk(order: seq<Endpoints>, cache: Cache) {
    && (forall i :: 0 <= i < |order| ==> order[i] in cache)
    && (forall i, k :: 0 <= i < k < |order| ==> order[i] != order[k])
    && (forall e :: e in cache ==> e in order)
  }

  lemma {:induction false} OrderSize(order: seq<Endpoints>, cache: Cache)
    requires OrderOk(order, cache)
    ensures |order| == |cache|
    decreases |order|
  {
    if order == [] {
      assert cache.Keys == {};
    } else {
      OrderRest(order, cache);
      OrderSize(order[1..], cache - {order[0]});
      assert (cache - {order[0]}).Keys == cache.Keys - {order[0]};
    }
  }

  lemma OrderRest(order: seq<Endpoints>, cache: Cache)
    requires OrderOk(order, cache) && order != []
    ensures OrderOk(order[1..], cache - {order[0]})
  {
    forall e | e in cache - {order[0]} ensures e in order[1..] {
      var i :| 0 <= i < |order| && order[i] == e;
      assert order[1..][i - 1] == e;
    }
  }

  lemma {:induction false} SumsIgnore(order: seq<Endpoints>, cache: Cache, e: Endpoints, paths: seq<Path>)
    requires forall i :: 0 <= i < |order| ==> order[i] in cache && order[i] != e
    ensures Entries(order, cache - {e}) == Entries(order, cache) && Count(order, cache - {e}) == Count(order, cache)
    ensures Entries(order, cache[e := paths]) == Entries(order, cache)
            && Count(order, cache[e := paths]) == Count(order, cache)
  {
    if |order| > 0 {
      SumsIgnore(order[1..], cache, e, paths);
    }
  }

  lemma {:induction false} SumsLast(order: seq<Endpoints>, cache: Cache, e: Endpoints)
    requires e in cache && forall i :: 0 <= i < |order| ==> order[i] in cache
    ensures Entries(order + [e], cache) == Entries(order, cache) + EntriesOf(cache[e])
    ensures Count(order + [e], cache) == Count(order, cache) + |cache[e]|
  {
    if |order| > 0 {
      SumsLast(order[1..], cache, e);
      assert (order + [e])[1..] == order[1..] + [e];
    } else {
      assert (order + [e])[1..] == [];
    }
  }

  /** What a fresh enumeration returns without throwing. */
  ghost predicate IsFresh(g: Graph, limits: PathLimits, e: Endpoints, paths: seq<Path>) {
    && Routable(g, e.source) && Routable(g, e.destination) && e.source != e.destination
    && !BeyondLimits(g, limits, e) && IsAnswer(g, e, paths)
  }

  /** The cache holds what a fresh enumeration would return, and its statistics match it. */
  ghost predicate CacheOk(g: Graph, limits: PathLimits, order: seq<Endpoints>, cache: Cache, routeEntries: nat,
                          paths: nat) {
    && OrderOk(order, cache) && |order| == |cache|
    && (forall e :: e in cache ==> IsFresh(g, limits, e, cache[e]))
    && routeEntries == Entries(order, cache) && paths == Count(order, cache)
  }

  lemma Evicted(g: Graph, limits: PathLimits, order: seq<Endpoints>, cache: Cache, routeEntries: nat, paths: nat)
    requires CacheOk(g, limits, order, cache, routeEntries, paths) && order != []
    ensures order[0] in cache && EntriesOf(cache[order[0]]) <= routeEntries && |cache[order[0]]| <= paths
    ensures CacheOk(g, limits, order[1..], cache - {order[0]}, routeEntries - EntriesOf(cache[order[0]]),
                    paths - |cache[order[0]]|)
  {
    hide IsFresh, EntriesOf;
    OrderRest(order, cache);
    FirstSums(order, cache);
    hide Entries, Count;
    OrderSize(order[1..], cache - {order[0]});
  }

  lemma FirstSums(order: seq<Endpoints>, cache: Cache)
    requires OrderOk(order, cache) && order != []
    ensures OrderOk(order[1..], cache - {order[0]})
    ensures Entries(order, cache) == Entries(order[1..], cache - {order[0]}) + EntriesOf(cache[order[0]])
    ensures Count(order, cache) == Count(order[1..], cache - {order[0]}) + |cache[order[0]]|
  {
    hide EntriesOf;
    OrderRest(order, cache);
    SumsIgnore(order[1..], cache, order[0], []);
  }

  lemma Stored(g: Graph, limits: PathLimits, order: seq<Endpoints>, cache: Cache, routeEntries: nat, paths: nat,
               e: Endpoints,
               found: seq<Path>)
    requires CacheOk(g, limits, order, cache, routeEntries, paths) && e !in cache && IsFresh(g, limits, e, found)
    ensures CacheOk(g, limits, order + [e], cache[e := found], routeEntries + EntriesOf(found), paths + |found|)
    ensures |cache[e := found]| == |cache| + 1
  {
    hide IsFresh, EntriesOf;
    StoredSums(order, cache, e, found);
    OrderMore(order, cache, e, found);
    OrderSize(order + [e], cache[e := found]);
    hide Entries, Count, OrderOk;
  }

  lemma CacheFacts(g: Graph, limits: PathLimits, order: seq<Endpoints>, cache: Cache, routeEntries: nat, paths: nat)
    requires CacheOk(g, limits, order, cache, routeEntries, paths)
    ensures |order| == |cache| && (order == [] ==> routeEntries == 0)
    ensures forall e :: e in cache ==> IsFresh(g, limits, e, cache[e])
  {
  }

  class PathService {
    const limits: PathLimits
    var revision: nat
    var cache: Cache
    var order: seq<Endpoints>
    var paths: nat
    var routeEntries: nat
    var hits: nat
    var misses: nat
    var invalidations: nat
    ghost var seen: Graph

    /** The cache agrees with the graph last looked at, with its statistics and with its limits. */
    ghost predicate Valid()
      reads this
    {
      && limits.maximumPaths > 0 && limits.maximumCachedPairs > 0 && limits.maximumCachedRouteEntries > 0
      && AdjacencyOk(seen) && revision == seen.revision
      && CacheOk(seen, limits, order, cache, routeEntries, paths)
      && routeEntries <= limits.maximumCachedRouteEntries && |cache| <= limits.maximumCachedPairs
    }

    constructor (g: Graph, limits: PathLimits)
      requires AdjacencyOk(g) && limits.maximumPaths > 0 && limits.maximumCachedPairs > 0
               && limits.maximumCachedRouteEntries > 0
      ensures Valid() && seen == g && this.limits == limits
    {
      this.limits, revision, seen := limits, g.revision, g;
      cache, order, paths, routeEntries := map[], [], 0, 0;
      hits, misses, invalidations := 0, 0, 0;
    }

    /** `evict_oldest`; the order queue is never empty here and the statistics never underflow. */
    method EvictOldest()
      requires CacheOk(seen, limits, order, cache, routeEntries, paths) && order != []
      modifies this`cache, this`order, this`paths, this`routeEntries
      ensures CacheOk(seen, limits, order, cache, routeEntries, paths) && order == old(order)[1..]
      ensures cache == old(cache) - {old(order)[0]} && routeEntries <= old(routeEntries)
    {
      hide CacheOk, EntriesOf;
      Evicted(seen, limits, order, cache, routeEntries, paths);
      var oldest := order[0];
      var dropped := CountEntries(cache[oldest]);
      routeEntries := routeEntries - dropped;
      paths := paths - |cache[oldest]|;
      cache := cache - {oldest};
      order := order[1..];
    }

    /** `lookup`: cached or not, exactly what a fresh enumeration of the graph as it is now would give. */
    method Lookup(g: Graph, e: Endpoints) returns (r: Result<seq<Path>>)
      requires Valid() && StateChange(seen, g)
      modifies this
      ensures Valid() && seen == g
      ensures r.Throw? && r.error == InvalidArgument <==>
              !Routable(g, e.source) || !Routable(g, e.destination) || e.source == e.destination
      ensures r.Throw? && r.error != InvalidArgument ==> r.error == LengthError && BeyondLimits(g, limits, e)
      ensures r.Ok? ==> IsFresh(g, limits, e, r.value) && e in cache && cache[e] == r.value
    {
      hide IsAnswer, AdjacencyOk, BeyondLimits, CacheOk, EntriesOf, StateChange;
      Changed(seen, g);
      if revision != g.revision {
        cache, order, paths, routeEntries := map[], [], 0, 0;
        invalidations := invalidations + 1;
        revision := g.revision;
        NothingCached(g, limits);
      }
      seen := g;
      CacheFacts(seen, limits, order, cache, routeEntries, paths);
      if e in cache {
        hits := hits + 1;
        return Ok(cache[e]);
      }
      misses := misses + 1;
      var found := Enumerate(g, limits, e);
      if found.Throw? {
        return found;
      }
      Store(e, found.value);
      return found;
    }

    /** The part of `lookup` that makes room and inserts. */
    method Store(e: Endpoints, found: seq<Path>)
      requires Valid() && e !in cache && IsFresh(seen, limits, e, found)
               && EntriesOf(found) <= limits.maximumCachedRouteEntries
      modifies this`cache, this`order, this`paths, this`routeEntries
      ensures Valid() && e in cache && cache[e] == found
    {
      hide IsFresh, AdjacencyOk, CacheOk, EntriesOf;
      var entries := CountEntries(found);
      while |cache| >= limits.maximumCachedPairs || entries > limits.maximumCachedRouteEntries - routeEntries
        invariant CacheOk(seen, limits, order, cache, routeEntries, paths) && |cache| <= limits.maximumCachedPairs
                  && e !in cache
        invariant routeEntries <= limits.maximumCachedRouteEntries
        decreases |order|
      {
        CacheFacts(seen, limits, order, cache, routeEntries, paths);
        assert order != [];
        EvictOldest();
        CacheFacts(seen, limits, order, cache, routeEntries, paths);
      }
      Stored(seen, limits, order, cache, routeEntries, paths, e, found);
      cache := cache[e := found];
      order := order + [e];
      routeEntries := routeEntries + entries;
      paths := paths + |found|;
    }
  }

  method CountEntries(paths: seq<Path>) returns (entries: nat)
    ensures entries == EntriesOf(paths)
  {
    entries := 0;
    for i := 0 to |paths|
      invariant entries == EntriesOf(paths[..i])
    {
      assert paths[..i + 1][..i] == paths[..i];
      entries := entries + |paths[i]|;
    }
    assert paths[..|paths|] == paths;
  }

  lemma NothingCached(g: Graph, limits: PathLimits)
    ensures CacheOk(g, limits, [], map[], 0, 0)
  {
  }

  lemma StoredSums(order: seq<Endpoints>, cache: Cache, e: Endpoints, found: seq<Path>)
    requires OrderOk(order, cache) && e !in cache
    ensures forall i :: 0 <= i < |order + [e]| ==> (order + [e])[i] in cache[e := found]
    ensures Entries(order + [e], cache[e := found]) == Entries(order, cache) + EntriesOf(found)
    ensures Count(order + [e], cache[e := found]) == Count(order, cache) + |found|
  {
    hide EntriesOf;
    SumsIgnore(order, cache, e, found);
    SumsLast(order, cache[e := found], e);
  }

  lemma OrderMore(order: seq<Endpoints>, cache: Cache, e: Endpoints, found: seq<Path>)
    requires OrderOk(order, cache) && e !in cache
    ensures OrderOk(order + [e], cache[e := found])
  {
    var order' := order + [e];
    forall x | x in cache[e := found] ensures x in order' {
      if x == e {
        assert order'[|order|] == x;
      } else {
        var i :| 0 <= i < |order| && order[i] == x;
        assert order'[i] == x;
      }
    }
  }

  lemma Changed(seen: Graph, g: Graph)
    requires StateChange(seen, g) && AdjacencyOk(seen)
    ensures AdjacencyOk(g) && (g.revision == seen.revision ==> g == seen)
  {
    hide AdjacencyOk;
    StructureKeepsArcs(seen, g);
  }

  lemma StateChangesCompose(a: Graph, b: Graph, c: Graph)
    requires StateChange(a, b) && StateChange(b, c)
    ensures StateChange(a, c)
  {
  }

  /**
   However many state changes lie between two lookups, they are one state change as far as the cache
   can tell: equal revisions mean that nothing changed.
   */
  lemma {:induction false} ChangesBetweenLookups(graphs: seq<Graph>)
    requires graphs != [] && forall i :: 0 < i < |graphs| ==> StateChange(graphs[i - 1], graphs[i])
    ensures StateChange(graphs[0], graphs[|graphs| - 1])
  {
    if |graphs| > 1 {
      hide StateChange;
      var last := |graphs| - 1;
      ChangesBetweenLookups(graphs[..last]);
      StateChangesCompose(graphs[0], graphs[last - 1], graphs[last]);
    }
  }
}
