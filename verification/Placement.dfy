/** The built-in placement policies of `simulator/src/scheduling/policy.cpp`. */
module Placements {
  import opened Prelude
  import opened Sorting
  import opened RackOptimality

  datatype Resource = Resource(gpu: nat, rack: nat, nic: nat, healthy: bool, owner: Option<nat>)

  datatype JobRequest = JobRequest(job: nat, workers: nat, pinned: seq<nat>)

  datatype Outcome = Placed | Waiting | Rejected

  datatype Placement = Placement(outcome: Outcome, workers: seq<nat>)

  /** `score` stands for the seeded hash the random policy sorts by. */
  datatype Policy = FirstFit | Random(score: (nat, nat) -> nat) | RackLocal | Compact

  predicate Free(r: Resource) {
    r.healthy && r.owner == None
  }

  /** A view lists every GPU once, in ID order. */
  ghost predicate ViewOk(view: seq<Resource>) {
    forall i, j :: 0 <= i < j < |view| ==> view[i].gpu < view[j].gpu
  }

  ghost predicate Has(view: seq<Resource>, gpu: nat) {
    exists i :: 0 <= i < |view| && view[i].gpu == gpu
  }

  ghost predicate HasFree(view: seq<Resource>, gpu: nat) {
    exists i :: 0 <= i < |view| && view[i].gpu == gpu && Free(view[i])
  }

  ghost predicate Distinct(gpus: seq<nat>) {
    forall i, j :: 0 <= i < j < |gpus| ==> gpus[i] != gpus[j]
  }

  /** No cluster state can ever satisfy the request. */
  ghost predicate Misfit(request: JobRequest, view: seq<Resource>) {
    || request.workers == 0 || request.workers > |view|
    || (request.pinned != [] && (|request.pinned| != request.workers || !Distinct(request.pinned)
                                 || exists i :: 0 <= i < |request.pinned| && !Has(view, request.pinned[i])))
  }

  function FreeOf(view: seq<Resource>): seq<Resource> {
    if view == [] then []
    else FreeOf(view[..|view| - 1]) + (if Free(view[|view| - 1]) then [view[|view| - 1]] else [])
  }

  /** Enough free GPUs, or the pinned ones. */
  ghost predicate Available(request: JobRequest, view: seq<Resource>) {
    if request.pinned == [] then request.workers <= |FreeOf(view)|
    else forall i :: 0 <= i < |request.pinned| ==> HasFree(view, request.pinned[i])
  }

  /** k distinct free GPUs in some rank order. */
  ghost predicate Candidate(view: seq<Resource>, workers: seq<nat>, k: nat) {
    |workers| == k && Distinct(workers) && forall i :: 0 <= i < |workers| ==> HasFree(view, workers[i])
  }

  ghost function RackOf(view: seq<Resource>, gpu: nat): nat {
    if Has(view, gpu) then
      var i :| 0 <= i < |view| && view[i].gpu == gpu;
      view[i].rack
    else 0
  }

  ghost function RacksOf(view: seq<Resource>, workers: seq<nat>): seq<nat> {
    seq(|workers|, i requires 0 <= i < |workers| => RackOf(view, workers[i]))
  }

  // Free GPUs

  lemma {:induction false} FreeOfHas(view: seq<Resource>, i: nat)
    requires i < |view|
    ensures Free(view[i]) ==> view[i] in FreeOf(view)
  {
    var last := |view| - 1;
    if i < last {
      FreeOfHas(view[..last], i);
    }
  }

  lemma {:induction false} FreeOfFrom(view: seq<Resource>, k: nat)
    requires k < |FreeOf(view)|
    ensures Free(FreeOf(view)[k]) && FreeOf(view)[k] in view
  {
    var last := |view| - 1;
    if k < |FreeOf(view[..last])| {
      FreeOfFrom(view[..last], k);
    }
  }

  lemma {:induction false} FreeOfAscends(view: seq<Resource>, j: nat, k: nat)
    requires ViewOk(view) && j < k < |FreeOf(view)|
    ensures FreeOf(view)[j].gpu < FreeOf(view)[k].gpu
  {
    var last := |view| - 1;
    if k < |FreeOf(view[..last])| {
      FreeOfAscends(view[..last], j, k);
    } else {
      FreeOfFrom(view[..last], j);
    }
  }

  // Orders

  /** The rack of each GPU. */
  ghost function Column(free: seq<Resource>): seq<nat> {
    seq(|free|, i requires 0 <= i < |free| => free[i].rack)
  }

  lemma ColumnSplit(a: seq<Resource>, b: seq<Resource>)
    ensures Column(a + b) == Column(a) + Column(b)
  {
  }

  /** Taking GPUs from a collection takes their racks from its racks. */
  lemma {:induction false} ColumnMonotone(a: seq<Resource>, b: seq<Resource>)
    requires multiset(a) <= multiset(b)
    ensures multiset(Column(a)) <= multiset(Column(b))
  {
    if a != [] {
      var last := |a| - 1;
      var x := a[last];
      assert x in multiset(b);
      var i :| 0 <= i < |b| && b[i] == x;
      var rest := b[..i] + b[i + 1..];
      Removed(a, last);
      Removed(b, i);
      assert a[..last] + a[last + 1..] == a[..last];
      OneLess(multiset(a[..last]), multiset(rest), x);
      ColumnMonotone(a[..last], rest);
    }
  }

  lemma OneLess(a: multiset<Resource>, b: multiset<Resource>, x: Resource)
    requires a + multiset{x} <= b + multiset{x}
    ensures a <= b
  {
    forall y ensures a[y] <= b[y] {
      assert (a + multiset{x})[y] <= (b + multiset{x})[y];
    }
  }

  /** One GPU less is one GPU of its rack less. */
  lemma Removed(s: seq<Resource>, i: nat)
    requires i < |s|
    ensures multiset(s) == multiset(s[..i] + s[i + 1..]) + multiset{s[i]}
    ensures multiset(Column(s)) == multiset(Column(s[..i] + s[i + 1..])) + multiset{s[i].rack}
  {
    assert s == s[..i] + [s[i]] + s[i + 1..];
    ColumnSplit(s[..i], s[i + 1..]);
    ColumnSplit(s[..i], [s[i]]);
    ColumnSplit(s[..i] + [s[i]], s[i + 1..]);
    assert Column([s[i]]) == [s[i].rack];
  }

  function Get(counts: map<nat, nat>, key: nat): nat {
    if key in counts then counts[key] else 0
  }

  /** The comparison of `compact`: fuller rack, then lower rack, fuller NIC, lower NIC, lower GPU. */
  predicate CompactLess(racks: map<nat, nat>, nics: map<nat, nat>, a: Resource, b: Resource) {
    if a.rack != b.rack then
      if Get(racks, a.rack) != Get(racks, b.rack) then Get(racks, a.rack) > Get(racks, b.rack) else a.rack < b.rack
    else if a.nic != b.nic then
      if Get(nics, a.nic) != Get(nics, b.nic) then Get(nics, a.nic) > Get(nics, b.nic) else a.nic < b.nic
    else a.gpu < b.gpu
  }

  lemma CompactIsOrder(racks: map<nat, nat>, nics: map<nat, nat>)
    ensures StrictWeakOrder((a, b) => CompactLess(racks, nics, a, b))
  {
    hide Get;
  }

  /** GPUs per rack and per NIC. */
  method CountFree(free: seq<Resource>) returns (racks: map<nat, nat>, nics: map<nat, nat>)
    ensures forall rack :: Get(racks, rack) == multiset(Column(free))[rack]
  {
    racks, nics := map[], map[];
    for i := 0 to |free|
      invariant forall rack :: Get(racks, rack) == multiset(Column(free[..i]))[rack]
    {
      var gpu := free[i];
      racks := racks[gpu.rack := Get(racks, gpu.rack) + 1];
      nics := nics[gpu.nic := Get(nics, gpu.nic) + 1];
      assert free[..i + 1] == free[..i] + [gpu];
      ColumnSplit(free[..i], [gpu]);
    }
    assert free[..|free|] == free;
  }

  /** `compact`: rack by rack, fullest rack first. */
  method CompactOrder(free: seq<Resource>) returns (order: seq<Resource>)
    ensures multiset(order) == multiset(free) && |order| == |free|
    ensures Contiguous(Column(order)) && FullestFirst(Column(order))
  {
    var racks, nics := CountFree(free);
    var less := (a, b) => CompactLess(racks, nics, a, b);
    order := Sort(free, less);
    SortPermutes(free, less);
    CompactIsOrder(racks, nics);
    SortOrders(free, less);
    ColumnMonotone(order, free);
    ColumnMonotone(free, order);
    CompactShape(order, racks, nics);
  }

  lemma CompactShape(order: seq<Resource>, racks: map<nat, nat>, nics: map<nat, nat>)
    requires Ordered(order, (a, b) => CompactLess(racks, nics, a, b))
    requires forall rack :: Get(racks, rack) == multiset(Column(order))[rack]
    ensures Contiguous(Column(order)) && FullestFirst(Column(order))
  {
    hide Get;
    var column := Column(order);
    forall i, j | 0 <= i < j < |order| && column[i] != column[j]
      ensures Get(racks, column[i]) > Get(racks, column[j])
              || (Get(racks, column[i]) == Get(racks, column[j]) && column[i] < column[j])
    {
      assert !CompactLess(racks, nics, order[j], order[i]);
    }
  }

  function InRack(free: seq<Resource>, rack: nat, there: bool): seq<Resource> {
    if free == [] then []
    else InRack(free[..|free| - 1], rack, there)
         + (if (free[|free| - 1].rack == rack) == there then [free[|free| - 1]] else [])
  }

  lemma {:induction false} InRackSplits(free: seq<Resource>, rack: nat)
    ensures multiset(InRack(free, rack, true)) + multiset(InRack(free, rack, false)) == multiset(free)
    ensures |InRack(free, rack, true)| + |InRack(free, rack, false)| == |free|
  {
    if free != [] {
      var last := |free| - 1;
      InRackSplits(free[..last], rack);
      var x, there, away := free[last], InRack(free[..last], rack, true), InRack(free[..last], rack, false);
      Removed(free, last);
      assert free[..last] + free[last + 1..] == free[..last];
      assert InRack(free, rack, true) == (if x.rack == rack then there + [x] else there);
      assert InRack(free, rack, false) == (if x.rack == rack then away else away + [x]);
      hide InRack, Column;
      if x.rack == rack {
        Extended(there, x);
      } else {
        Extended(away, x);
      }
      assert multiset(free) == (multiset(there) + multiset(away)) + multiset{x};
    }
  }

  lemma Extended(s: seq<Resource>, x: Resource)
    ensures multiset(s + [x]) == multiset(s) + multiset{x}
  {
  }

  lemma {:induction false} InRackCounts(free: seq<Resource>, rack: nat)
    ensures |InRack(free, rack, true)| == multiset(Column(free))[rack]
  {
    if free != [] {
      var last := |free| - 1;
      InRackCounts(free[..last], rack);
      Removed(free, last);
      assert free[..last] + free[last + 1..] == free[..last];
    }
  }

  lemma {:induction false} InRackThere(free: seq<Resource>, rack: nat, i: nat)
    requires i < |InRack(free, rack, true)|
    ensures InRack(free, rack, true)[i].rack == rack
  {
    var last := |free| - 1;
    if i < |InRack(free[..last], rack, true)| {
      InRackThere(free[..last], rack, i);
    }
  }

  /** The racks that have k free GPUs to offer. */
  ghost predicate Roomy(free: seq<Resource>, rack: nat, k: nat) {
    multiset(Column(free))[rack] >= k
  }

  /** `rack_local`: the GPUs of the lowest rack with enough of them come first. */
  method RackLocalOrder(free: seq<Resource>, k: nat) returns (order: seq<Resource>)
    requires k > 0
    ensures multiset(order) == multiset(free) && |order| == |free|
    ensures (exists rack :: Roomy(free, rack, k)) ==> TakesOneRack(order, k)
  {
    var racks, nics := CountFree(free);
    var roomy := set rack | rack in racks && racks[rack] >= k;
    if roomy == {} {
      assert forall rack :: Roomy(free, rack, k) ==> rack in roomy;
      return free;
    }
    var found := Least(roomy);
    order := InRack(free, found, true) + InRack(free, found, false);
    InRackSplits(free, found);
    InRackCounts(free, found);
    assert multiset(order) == multiset(InRack(free, found, true)) + multiset(InRack(free, found, false));
    forall i | 0 <= i < k ensures order[i].rack == found {
      InRackThere(free, found, i);
    }
    assert Roomy(free, found, k);
    forall lower | lower < found ensures !Roomy(free, lower, k) {
      assert lower !in roomy;
    }
    RoomySame(free, order, k);
  }

  /** The first key of an ordered map that satisfies a condition. */
  method Least(s: set<nat>) returns (least: nat)
    requires s != {}
    ensures least in s && forall x :: x in s ==> least <= x
  {
    var rest := s;
    least :| least in rest;
    rest := rest - {least};
    while rest != {}
      invariant rest <= s && least in s && forall x :: x in s && x !in rest ==> least <= x
      decreases |rest|
    {
      var x :| x in rest;
      if x < least {
        least := x;
      }
      rest := rest - {x};
    }
  }

  /** `order`. */
  method OrderFree(policy: Policy, free: seq<Resource>, request: JobRequest) returns (order: seq<Resource>)
    requires request.workers > 0
    ensures multiset(order) == multiset(free) && |order| == |free|
    ensures policy == Compact ==> Contiguous(Column(order)) && FullestFirst(Column(order))
    ensures policy == RackLocal && (exists rack :: Roomy(free, rack, request.workers)) ==>
              TakesOneRack(order, request.workers)
    ensures policy == FirstFit ==> Ascending(order)
  {
    hide Contiguous, FullestFirst, TakesOneRack, Roomy;
    order := SortById(free);
    match policy {
      case FirstFit =>
      case Random(score) =>
        var byScore := (a: Resource, b: Resource) =>
          var left, right := score(request.job, a.gpu), score(request.job, b.gpu);
          if left != right then left < right else a.gpu < b.gpu;
        SortPermutes(order, byScore);
        order := Sort(order, byScore);
      case RackLocal =>
        RoomySame(free, order, request.workers);
        order := RackLocalOrder(order, request.workers);
      case Compact =>
        order := CompactOrder(order);
    }
  }

  method SortById(free: seq<Resource>) returns (order: seq<Resource>)
    ensures multiset(order) == multiset(free) && |order| == |free| && Ascending(order)
  {
    var byId := (a: Resource, b: Resource) => a.gpu < b.gpu;
    order := Sort(free, byId);
    SortPermutes(free, byId);
    SortOrders(free, byId);
  }

  ghost predicate Ascending(gpus: seq<Resource>) {
    forall i, j :: 0 <= i < j < |gpus| ==> gpus[i].gpu <= gpus[j].gpu
  }

  lemma RoomySame(a: seq<Resource>, b: seq<Resource>, k: nat)
    requires multiset(a) == multiset(b)
    ensures forall rack :: Roomy(a, rack, k) <==> Roomy(b, rack, k)
  {
    ColumnMonotone(a, b);
    ColumnMonotone(b, a);
  }

  /** The first k GPUs are those of the lowest rack that has k to offer. */
  ghost predicate TakesOneRack(order: seq<Resource>, k: nat) {
    exists rack :: Roomy(order, rack, k) && (forall lower :: lower < rack ==> !Roomy(order, lower, k))
                   && k <= |order| && forall i :: 0 <= i < k ==> order[i].rack == rack
  }

  // Placement

  /** What distinguishes a policy's choice among the placements that would do. */
  ghost predicate Preferred(policy: Policy, view: seq<Resource>, workers: seq<nat>, k: nat) {
    match policy
    case Compact =>
      forall other :: Candidate(view, other, k) ==>
        && |RackSet(RacksOf(view, workers))| <= |RackSet(RacksOf(view, other))|
        && |Crossings(RacksOf(view, workers))| <= |Crossings(RacksOf(view, other))|
    case RackLocal =>
      (exists other :: Candidate(view, other, k) && |RackSet(RacksOf(view, other))| == 1) ==>
        |RackSet(RacksOf(view, workers))| == 1
    case FirstFit =>
      && (forall i, j :: 0 <= i < j < |workers| ==> workers[i] < workers[j])
      && (forall gpu :: HasFree(view, gpu) && gpu !in workers ==> forall i :: 0 <= i < |workers| ==> workers[i] < gpu)
    case Random(_) => true
  }

  /** `pinned`: exactly the pinned GPUs in their order, once all of them are free. */
  method PlacePinned(request: JobRequest, view: seq<Resource>) returns (p: Placement)
    requires ViewOk(view) && request.pinned != [] && |request.pinned| == request.workers <= |view|
    ensures p.outcome == (if Misfit(request, view) then Rejected else if Available(request, view) then Placed
                          else Waiting)
    ensures p.workers == if p.outcome == Placed then request.pinned else []
    ensures p.outcome == Placed ==> Candidate(view, p.workers, request.workers)
  {
    var resources := Lookup(view);
    var unique: set<nat> := {};
    var blocked := false;
    for k := 0 to |request.pinned|
      invariant forall gpu :: gpu in unique <==> exists i :: 0 <= i < k && request.pinned[i] == gpu
      invariant forall i :: 0 <= i < k ==> Has(view, request.pinned[i])
      invariant Distinct(request.pinned[..k])
      invariant blocked <==> exists i :: 0 <= i < k && !HasFree(view, request.pinned[i])
    {
      var id := request.pinned[k];
      if id !in resources || id in unique {
        return Placement(Rejected, []);
      }
      unique := unique + {id};
      PinnedFree(view, id, resources[id]);
      assert request.pinned[..k + 1] == request.pinned[..k] + [id];
      blocked := blocked || !Free(resources[id]);
    }
    assert request.pinned[..|request.pinned|] == request.pinned;
    if blocked {
      return Placement(Waiting, []);
    }
    return Placement(Placed, request.pinned);
  }

  /** The view indexed by GPU. */
  method Lookup(view: seq<Resource>) returns (resources: map<nat, Resource>)
    requires ViewOk(view)
    ensures forall gpu :: gpu in resources <==> Has(view, gpu)
    ensures forall gpu :: gpu in resources ==> resources[gpu] in view && resources[gpu].gpu == gpu
  {
    resources := map[];
    for i := 0 to |view|
      invariant forall gpu :: gpu in resources <==> exists j :: 0 <= j < i && view[j].gpu == gpu
      invariant forall gpu :: gpu in resources ==> resources[gpu] in view && resources[gpu].gpu == gpu
    {
      resources := resources[view[i].gpu := view[i]];
    }
  }

  lemma PinnedFree(view: seq<Resource>, gpu: nat, r: Resource)
    requires ViewOk(view) && r in view && r.gpu == gpu
    ensures HasFree(view, gpu) <==> Free(r)
  {
  }

  // What an order of the free GPUs chooses

  lemma {:induction false} CountsDistinct(s: seq<Resource>, x: Resource)
    requires forall i, j :: 0 <= i < j < |s| ==> s[i] != s[j]
    ensures multiset(s)[x] <= 1
  {
    if s != [] {
      var last := |s| - 1;
      CountsDistinct(s[..last], x);
      assert s == s[..last] + [s[last]];
      if s[last] == x {
        assert x !in s[..last];
      }
    }
  }

  lemma CountsTwice(s: seq<Resource>, i: nat, j: nat)
    requires i < j < |s| && s[i] == s[j]
    ensures multiset(s)[s[i]] >= 2
  {
    assert s == s[..j] + s[j..];
    assert s[i] == s[..j][i] && s[i] == s[j..][0];
    assert s[i] in multiset(s[..j]) && s[i] in multiset(s[j..]);
  }

  lemma PermutedDistinct(a: seq<Resource>, b: seq<Resource>)
    requires multiset(a) == multiset(b) && forall i, j :: 0 <= i < j < |a| ==> a[i].gpu != a[j].gpu
    ensures forall i, j :: 0 <= i < j < |b| ==> b[i].gpu != b[j].gpu
  {
    forall i, j | 0 <= i < j < |b| ensures b[i].gpu != b[j].gpu {
      assert b[i] in multiset(a) && b[j] in multiset(a);
      CountsDistinct(a, b[i]);
      if b[i] == b[j] {
        CountsTwice(b, i, j);
      }
    }
  }

  /** The free GPUs of a view in any order: each is in the view, and no two share an ID. */
  lemma OrderedFree(view: seq<Resource>, order: seq<Resource>)
    requires ViewOk(view) && multiset(order) == multiset(FreeOf(view))
    ensures forall i :: 0 <= i < |order| ==> order[i] in view && Free(order[i])
    ensures forall i, j :: 0 <= i < j < |order| ==> order[i].gpu != order[j].gpu
    ensures forall r :: r in view && Free(r) ==> r in order
  {
    var free := FreeOf(view);
    forall i | 0 <= i < |order| ensures order[i] in view && Free(order[i]) {
      assert order[i] in multiset(free);
      var k :| 0 <= k < |free| && free[k] == order[i];
      FreeOfFrom(view, k);
    }
    forall j, k | 0 <= j < k < |free| ensures free[j].gpu != free[k].gpu {
      FreeOfAscends(view, j, k);
    }
    PermutedDistinct(free, order);
    forall r | r in view && Free(r) ensures r in order {
      var i :| 0 <= i < |view| && view[i] == r;
      FreeOfHas(view, i);
      assert r in multiset(order);
    }
  }

  lemma RackOfIs(view: seq<Resource>, r: Resource)
    requires ViewOk(view) && r in view
    ensures RackOf(view, r.gpu) == r.rack
  {
    assert Has(view, r.gpu);
  }

  ghost predicate Chosen(order: seq<Resource>, workers: seq<nat>) {
    |workers| <= |order| && forall i :: 0 <= i < |workers| ==> workers[i] == order[i].gpu
  }

  lemma OrderChooses(view: seq<Resource>, order: seq<Resource>, workers: seq<nat>)
    requires ViewOk(view) && multiset(order) == multiset(FreeOf(view)) && Chosen(order, workers)
    ensures Candidate(view, workers, |workers|) && RacksOf(view, workers) == Column(order)[..|workers|]
  {
    OrderedFree(view, order);
    forall i | 0 <= i < |workers| ensures HasFree(view, workers[i]) && RackOf(view, workers[i]) == order[i].rack {
      RackOfIs(view, order[i]);
      var k :| 0 <= k < |view| && view[k] == order[i];
    }
  }

  ghost function ResourceAt(view: seq<Resource>, gpu: nat): Resource
    requires HasFree(view, gpu)
  {
    var i :| 0 <= i < |view| && view[i].gpu == gpu && Free(view[i]);
    view[i]
  }

  /** Any candidate takes its racks from those of the free GPUs. */
  lemma CandidateRacks(view: seq<Resource>, order: seq<Resource>, other: seq<nat>)
    requires ViewOk(view) && multiset(order) == multiset(FreeOf(view)) && Candidate(view, other, |other|)
    ensures multiset(RacksOf(view, other)) <= multiset(Column(order))
  {
    OrderedFree(view, order);
    var taken := seq(|other|, i requires 0 <= i < |other| => ResourceAt(view, other[i]));
    forall i | 0 <= i < |other| ensures RackOf(view, other[i]) == taken[i].rack {
      RackOfIs(view, taken[i]);
    }
    assert RacksOf(view, other) == Column(taken);
    hide RacksOf, Candidate, ViewOk;
    AllAmong(taken, order);
    ColumnMonotone(taken, order);
  }

  lemma AllAmong(taken: seq<Resource>, order: seq<Resource>)
    requires forall i, j :: 0 <= i < j < |taken| ==> taken[i] != taken[j]
    requires forall i :: 0 <= i < |taken| ==> taken[i] in order
    ensures forall x :: multiset(taken)[x] <= multiset(order)[x]
  {
    forall x ensures multiset(taken)[x] <= multiset(order)[x] {
      CountsDistinct(taken, x);
      if x in multiset(taken) {
        var i :| 0 <= i < |taken| && taken[i] == x;
        assert x in order;
      }
    }
  }

  lemma CompactPrefers(view: seq<Resource>, order: seq<Resource>, workers: seq<nat>, other: seq<nat>)
    requires ViewOk(view) && multiset(order) == multiset(FreeOf(view)) && Chosen(order, workers) && workers != []
    requires Contiguous(Column(order)) && FullestFirst(Column(order)) && Candidate(view, other, |workers|)
    ensures |RackSet(RacksOf(view, workers))| <= |RackSet(RacksOf(view, other))|
    ensures |Crossings(RacksOf(view, workers))| <= |Crossings(RacksOf(view, other))|
  {
    hide Contiguous, FullestFirst, RackSet, Crossings;
    OrderChooses(view, order, workers);
    CandidateRacks(view, order, other);
    FewestRacks(Column(order), |workers|, RacksOf(view, other));
    FewestCrossings(Column(order), |workers|, RacksOf(view, other));
  }

  lemma {:induction false} SameRackCount(racks: seq<nat>, r: nat)
    requires forall i :: 0 <= i < |racks| ==> racks[i] == r
    ensures multiset(racks)[r] == |racks|
  {
    if racks != [] {
      var last := |racks| - 1;
      SameRackCount(racks[..last], r);
      assert racks == racks[..last] + [racks[last]];
    }
  }

  lemma OneRackIsRoomy(view: seq<Resource>, order: seq<Resource>, other: seq<nat>)
    requires ViewOk(view) && multiset(order) == multiset(FreeOf(view)) && Candidate(view, other, |other|)
    requires |RackSet(RacksOf(view, other))| == 1
    ensures exists rack :: Roomy(order, rack, |other|)
  {
    var racks := RacksOf(view, other);
    CandidateRacks(view, order, other);
    var r :| r in RackSet(racks);
    OnlyOne(RackSet(racks), r);
    assert forall i :: 0 <= i < |racks| ==> racks[i] in RackSet(racks);
    SameRackCount(racks, r);
    assert Roomy(order, r, |other|);
  }

  lemma OneRackIsOne(racks: seq<nat>, r: nat)
    requires racks != [] && forall i :: 0 <= i < |racks| ==> racks[i] == r
    ensures |RackSet(racks)| == 1
  {
    assert racks[0] in RackSet(racks);
    assert RackSet(racks) == {r};
  }

  lemma RackLocalPrefers(view: seq<Resource>, order: seq<Resource>, workers: seq<nat>)
    requires ViewOk(view) && multiset(order) == multiset(FreeOf(view)) && Chosen(order, workers) && workers != []
    requires (exists rack :: Roomy(order, rack, |workers|)) ==> TakesOneRack(order, |workers|)
    requires exists other :: Candidate(view, other, |workers|) && |RackSet(RacksOf(view, other))| == 1
    ensures |RackSet(RacksOf(view, workers))| == 1
  {
    hide Roomy, RackSet;
    var other :| Candidate(view, other, |workers|) && |RackSet(RacksOf(view, other))| == 1;
    OneRackIsRoomy(view, order, other);
    OrderChooses(view, order, workers);
    OneRackIsOne(RacksOf(view, workers), order[0].rack);
  }

  lemma FirstFitPrefers(view: seq<Resource>, order: seq<Resource>, workers: seq<nat>)
    requires ViewOk(view) && multiset(order) == multiset(FreeOf(view)) && Chosen(order, workers) && Ascending(order)
    ensures Preferred(FirstFit, view, workers, |workers|)
  {
    OrderedFree(view, order);
    forall gpu | HasFree(view, gpu) && gpu !in workers
      ensures forall i :: 0 <= i < |workers| ==> workers[i] < gpu
    {
      var r := ResourceAt(view, gpu);
      var p :| 0 <= p < |order| && order[p] == r;
      NotChosen(order, workers, p);
    }
  }

  lemma NotChosen(order: seq<Resource>, workers: seq<nat>, p: nat)
    requires Chosen(order, workers) && p < |order| && order[p].gpu !in workers
    ensures |workers| <= p
  {
  }

  lemma OrderPrefers(policy: Policy, view: seq<Resource>, order: seq<Resource>, workers: seq<nat>, k: nat)
    requires ViewOk(view) && multiset(order) == multiset(FreeOf(view)) && Chosen(order, workers) && |workers| == k > 0
    requires policy == Compact ==> Contiguous(Column(order)) && FullestFirst(Column(order))
    requires policy == RackLocal && (exists rack :: Roomy(order, rack, k)) ==> TakesOneRack(order, k)
    requires policy == FirstFit ==> Ascending(order)
    ensures Preferred(policy, view, workers, k)
  {
    hide FreeOf, Contiguous, FullestFirst, Chosen, RackSet, Crossings, TakesOneRack, Roomy, Candidate;
    match policy {
      case Compact =>
        forall other | Candidate(view, other, k)
          ensures |RackSet(RacksOf(view, workers))| <= |RackSet(RacksOf(view, other))|
          ensures |Crossings(RacksOf(view, workers))| <= |Crossings(RacksOf(view, other))|
        {
          CompactPrefers(view, order, workers, other);
        }
      case RackLocal =>
        if exists other :: Candidate(view, other, k) && |RackSet(RacksOf(view, other))| == 1 {
          RackLocalPrefers(view, order, workers);
        }
      case FirstFit =>
        FirstFitPrefers(view, order, workers);
      case Random(_) =>
    }
  }

  /** `BuiltinPolicy::place`. */
  method Place(policy: Policy, request: JobRequest, view: seq<Resource>) returns (p: Placement)
    requires ViewOk(view)
    ensures p.outcome == (if Misfit(request, view) then Rejected else if Available(request, view) then Placed
                          else Waiting)
    ensures p.outcome != Placed ==> p.workers == []
    ensures p.outcome == Placed ==> Candidate(view, p.workers, request.workers)
    ensures p.outcome == Placed && request.pinned != [] ==> p.workers == request.pinned
    ensures p.outcome == Placed && request.pinned == [] ==> Preferred(policy, view, p.workers, request.workers)
  {
    hide FreeOf, Preferred, Contiguous, FullestFirst, TakesOneRack, Roomy, Ascending;
    if request.workers == 0 || request.workers > |view|
      || (request.pinned != [] && |request.pinned| != request.workers) {
      return Placement(Rejected, []);
    }
    if request.pinned != [] {
      p := PlacePinned(request, view);
      return;
    }
    var free := CollectFree(view);
    if |free| < request.workers {
      return Placement(Waiting, []);
    }
    var order := OrderFree(policy, free, request);
    var workers := [];
    for index := 0 to request.workers
      invariant |workers| == index
      invariant forall i :: 0 <= i < index ==> workers[i] == order[i].gpu
    {
      workers := workers + [order[index].gpu];
    }
    OrderChooses(view, order, workers);
    RoomySame(free, order, request.workers);
    OrderPrefers(policy, view, order, workers, request.workers);
    return Placement(Placed, workers);
  }

  method CollectFree(view: seq<Resource>) returns (free: seq<Resource>)
    ensures free == FreeOf(view)
  {
    free := [];
    for i := 0 to |view|
      invariant free == FreeOf(view[..i])
    {
      assert view[..i + 1][..i] == view[..i];
      if view[i].healthy && view[i].owner == None {
        free := free + [view[i]];
      }
    }
    assert view[..|view|] == view;
  }
}
