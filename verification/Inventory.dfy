/** GPU ownership and health, and placement metrics, of `simulator/src/scheduling/inventory.cpp`. */
module Inventory {
  import opened Prelude
  import opened Topology
  import opened RackOptimality
  import opened Placements

  // The specification of each update

  function Owned(view: seq<Resource>, workers: set<nat>, job: nat): (r: seq<Resource>)
    ensures |r| == |view|
    ensures forall i :: 0 <= i < |view| ==>
              r[i] == if view[i].gpu in workers then view[i].(owner := Some(job)) else view[i]
  {
    if view == [] then []
    else
      var last := view[|view| - 1];
      Owned(view[..|view| - 1], workers, job) + [if last.gpu in workers then last.(owner := Some(job)) else last]
  }

  function Released(view: seq<Resource>, job: nat): (r: seq<Resource>)
    ensures |r| == |view|
    ensures forall i :: 0 <= i < |view| ==>
              r[i] == if view[i].owner == Some(job) then view[i].(owner := None) else view[i]
  {
    if view == [] then []
    else
      var last := view[|view| - 1];
      Released(view[..|view| - 1], job) + [if last.owner == Some(job) then last.(owner := None) else last]
  }

  function WithHealth(view: seq<Resource>, gpu: nat, healthy: bool): (r: seq<Resource>)
    ensures |r| == |view|
    ensures forall i :: 0 <= i < |view| ==> r[i] == if view[i].gpu == gpu then view[i].(healthy := healthy) else view[i]
  {
    if view == [] then []
    else
      var last := view[|view| - 1];
      WithHealth(view[..|view| - 1], gpu, healthy) + [if last.gpu == gpu then last.(healthy := healthy) else last]
  }

  function ToSet(gpus: seq<nat>): set<nat> {
    set i | 0 <= i < |gpus| :: gpus[i]
  }

  /** What `allocate` accepts. */
  ghost predicate Allocatable(view: seq<Resource>, job: nat, workers: seq<nat>) {
    && workers != [] && |workers| <= |view| && Candidate(view, workers, |workers|)
    && forall i :: 0 <= i < |view| ==> view[i].owner != Some(job)
  }

  /** Giving back what was taken restores the view. */
  lemma ReleaseUndoesAllocate(view: seq<Resource>, job: nat, workers: seq<nat>)
    requires ViewOk(view) && Allocatable(view, job, workers)
    ensures Released(Owned(view, ToSet(workers), job), job) == view
  {
    var owned := Owned(view, ToSet(workers), job);
    hide Owned, Released;
    forall i | 0 <= i < |view| ensures Released(owned, job)[i] == view[i] {
      if view[i].gpu in ToSet(workers) {
        assert HasFree(view, view[i].gpu);
      }
    }
  }

  function InitialOf(worker: GpuWorker): Resource {
    Resource(worker.id, worker.rack, worker.attachedNic, true, None)
  }

  class ResourceInventory {
    var gpus: seq<Resource>

    ghost predicate Valid()
      reads this
    {
      ViewOk(gpus)
    }

    constructor (view: seq<Resource>)
      requires ViewOk(view)
      ensures Valid() && gpus == view
    {
      gpus := view;
    }

    /** The constructor: every GPU of the graph, healthy and free, in ID order. */
    static method Create(workers: seq<GpuWorker>) returns (r: Result<ResourceInventory>)
      requires forall i, j :: 0 <= i < j < |workers| ==> workers[i].id != workers[j].id
      ensures r.Ok? <==> 1 <= |workers| <= 8192
      ensures r.Throw? ==> r.error == LengthError
      ensures r.Ok? ==> fresh(r.value) && r.value.Valid() && |r.value.gpus| == |workers|
      ensures r.Ok? ==> forall i :: 0 <= i < |workers| ==> InitialOf(workers[i]) in r.value.gpus
      ensures r.Ok? ==> forall i :: 0 <= i < |r.value.gpus| ==> Free(r.value.gpus[i])
    {
      if workers == [] || |workers| > 8192 {
        return Throw(LengthError);
      }
      var resources := [];
      for i := 0 to |workers|
        invariant |resources| == i
        invariant forall j :: 0 <= j < i ==> resources[j] == InitialOf(workers[j])
      {
        resources := resources + [Resource(workers[i].id, workers[i].rack, workers[i].attachedNic, true, None)];
      }
      var view := SortById(resources);
      PermutedDistinct(resources, view);
      forall i | 0 <= i < |workers| ensures InitialOf(workers[i]) in view {
        assert resources[i] in multiset(view);
      }
      forall i | 0 <= i < |view| ensures Free(view[i]) {
        assert view[i] in multiset(resources);
      }
      var inventory := new ResourceInventory(view);
      return Ok(inventory);
    }

    /** The first entry with this GPU or a later one; `std::lower_bound`. */
    method LowerBound(gpu: nat) returns (index: nat)
      requires Valid()
      ensures index <= |gpus|
      ensures forall i :: 0 <= i < index ==> gpus[i].gpu < gpu
      ensures forall i :: index <= i < |gpus| ==> gpus[i].gpu >= gpu
    {
      var low, high := 0, |gpus|;
      while low < high
        invariant 0 <= low <= high <= |gpus|
        invariant forall i :: 0 <= i < low ==> gpus[i].gpu < gpu
        invariant forall i :: high <= i < |gpus| ==> gpus[i].gpu >= gpu
      {
        var middle := (low + high) / 2;
        if gpus[middle].gpu < gpu {
          low := middle + 1;
        } else {
          high := middle;
        }
      }
      return low;
    }

    /** All of the GPUs become the job's, or none does. */
    method Allocate(job: nat, workers: seq<nat>) returns (r: Result<()>)
      requires Valid()
      modifies this
      ensures Valid()
      ensures r.Ok? <==> Allocatable(old(gpus), job, workers)
      ensures r.Throw? ==> r.error == InvalidArgument
      ensures gpus == if r.Ok? then Owned(old(gpus), ToSet(workers), job) else old(gpus)
    {
      var duplicate := exists i :: 0 <= i < |gpus| && gpus[i].owner == Some(job);
      if workers == [] || |workers| > |gpus| || duplicate {
        return Throw(InvalidArgument);
      }
      var indices := FindAll(workers);
      if indices == None {
        return Throw(InvalidArgument);
      }
      Assign(job, workers, indices.value);
      return Ok(());
    }

    /** The entries of the workers, if each of them is there and free and none comes twice. */
    method FindAll(workers: seq<nat>) returns (indices: Option<seq<nat>>)
      requires Valid()
      ensures indices.Some? <==> Candidate(gpus, workers, |workers|)
      ensures indices.Some? ==> Located(gpus, workers, indices.value)
    {
      var unique: set<nat> := {};
      var found: seq<nat> := [];
      for k := 0 to |workers|
        invariant forall gpu :: gpu in unique <==> exists i :: 0 <= i < k && workers[i] == gpu
        invariant Candidate(gpus, workers[..k], k) && Located(gpus, workers[..k], found)
      {
        var index := LowerBound(workers[k]);
        if index == |gpus| || gpus[index].gpu != workers[k] || !gpus[index].healthy || gpus[index].owner != None
           || workers[k] in unique {
          return None;
        }
        unique := unique + {workers[k]};
        found := found + [index];
        assert workers[..k + 1] == workers[..k] + [workers[k]];
      }
      assert workers[..|workers|] == workers;
      return Some(found);
    }

    method Assign(job: nat, workers: seq<nat>, indices: seq<nat>)
      requires Valid() && Located(gpus, workers, indices)
      modifies this
      ensures Valid() && gpus == Owned(old(gpus), ToSet(workers), job)
    {
      for k := 0 to |indices|
        invariant |gpus| == |old(gpus)|
        invariant forall i :: 0 <= i < |gpus| ==>
                    gpus[i] == if Reached(old(gpus)[i].gpu, workers, k) then old(gpus)[i].(owner := Some(job))
                    else old(gpus)[i]
      {
        var index := indices[k];
        gpus := gpus[index := gpus[index].(owner := Some(job))];
        assert forall gpu :: Reached(gpu, workers, k + 1) <==> Reached(gpu, workers, k) || gpu == workers[k];
      }
      assert forall gpu :: Reached(gpu, workers, |workers|) <==> gpu in ToSet(workers);
    }

    method Release(job: nat)
      requires Valid()
      modifies this
      ensures Valid() && gpus == Released(old(gpus), job)
    {
      for k := 0 to |gpus|
        invariant |gpus| == |old(gpus)|
        invariant forall i :: 0 <= i < |gpus| ==>
                    gpus[i] == if i < k && old(gpus)[i].owner == Some(job) then old(gpus)[i].(owner := None)
                    else old(gpus)[i]
      {
        if gpus[k].owner == Some(job) {
          gpus := gpus[k := gpus[k].(owner := None)];
        }
      }
    }

    /** Health changes; the owner, if any, is reported. */
    method SetHealth(gpu: nat, healthy: bool) returns (r: Result<Option<nat>>)
      requires Valid()
      modifies this
      ensures Valid()
      ensures r.Ok? <==> Has(old(gpus), gpu)
      ensures r.Throw? ==> r.error == InvalidArgument
      ensures gpus == if r.Ok? then WithHealth(old(gpus), gpu, healthy) else old(gpus)
      ensures r.Ok? ==> forall i :: 0 <= i < |gpus| && gpus[i].gpu == gpu ==> r.value == gpus[i].owner
    {
      var index := LowerBound(gpu);
      if index == |gpus| || gpus[index].gpu != gpu {
        return Throw(InvalidArgument);
      }
      gpus := gpus[index := gpus[index].(healthy := healthy)];
      return Ok(gpus[index].owner);
    }
  }

  ghost predicate Reached(gpu: nat, workers: seq<nat>, k: nat)
    requires k <= |workers|
  {
    exists i :: 0 <= i < k && workers[i] == gpu
  }

  ghost predicate Located(view: seq<Resource>, workers: seq<nat>, indices: seq<nat>) {
    |indices| == |workers| && forall i :: 0 <= i < |workers| ==>
      indices[i] < |view| && view[indices[i]].gpu == workers[i]
  }

  // Placement metrics

  datatype Locality = Locality(racks: nat, nics: nat, crossRackRingEdges: nat)

  ghost function NicOf(view: seq<Resource>, gpu: nat): nat {
    if Has(view, gpu) then
      var i :| 0 <= i < |view| && view[i].gpu == gpu;
      view[i].nic
    else 0
  }

  ghost function NicSet(view: seq<Resource>, workers: seq<nat>): set<nat> {
    set i | 0 <= i < |workers| :: NicOf(view, workers[i])
  }

  ghost function CrossingsUpTo(racks: seq<nat>, k: nat): set<nat>
    requires k <= |racks|
  {
    set i | 0 <= i < k && Crosses(racks, i)
  }

  lemma NicOfIs(view: seq<Resource>, r: Resource)
    requires ViewOk(view) && r in view
    ensures NicOf(view, r.gpu) == r.nic
  {
    assert Has(view, r.gpu);
  }

  lemma CrossingsNext(racks: seq<nat>, k: nat)
    requires k < |racks|
    ensures |CrossingsUpTo(racks, k + 1)| == |CrossingsUpTo(racks, k)| + (if Crosses(racks, k) then 1 else 0)
  {
    hide Crosses;
    if Crosses(racks, k) {
      assert CrossingsUpTo(racks, k + 1) == CrossingsUpTo(racks, k) + {k};
    } else {
      assert CrossingsUpTo(racks, k + 1) == CrossingsUpTo(racks, k);
    }
  }

  lemma SetsNext(view: seq<Resource>, workers: seq<nat>, k: nat)
    requires k < |workers|
    ensures RackSet(RacksOf(view, workers[..k + 1])) == RackSet(RacksOf(view, workers[..k]))
            + {RackOf(view, workers[k])}
    ensures NicSet(view, workers[..k + 1]) == NicSet(view, workers[..k]) + {NicOf(view, workers[k])}
  {
    hide RackOf, NicOf;
    var racks := RacksOf(view, workers[..k]);
    assert RacksOf(view, workers[..k + 1]) == racks + [RackOf(view, workers[k])];
    assert RackSet(racks + [RackOf(view, workers[k])]) == RackSet(racks) + {RackOf(view, workers[k])} by {
      forall i | 0 <= i < |racks| ensures (racks + [RackOf(view, workers[k])])[i] == racks[i] {
      }
      assert (racks + [RackOf(view, workers[k])])[|racks|] == RackOf(view, workers[k]);
    }
    forall nic | nic in NicSet(view, workers[..k]) + {NicOf(view, workers[k])}
      ensures nic in NicSet(view, workers[..k + 1]) {
      if nic == NicOf(view, workers[k]) {
        assert workers[..k + 1][k] == workers[k];
      } else {
        var i :| 0 <= i < k && NicOf(view, workers[..k][i]) == nic;
        assert workers[..k + 1][i] == workers[..k][i];
      }
    }
    forall nic | nic in NicSet(view, workers[..k + 1])
      ensures nic in NicSet(view, workers[..k]) + {NicOf(view, workers[k])} {
      var i :| 0 <= i < k + 1 && NicOf(view, workers[..k + 1][i]) == nic;
      if i < k {
        assert workers[..k][i] == workers[..k + 1][i];
      }
    }
  }

  /** `locality`: how far a placement is spread, and how often its ring leaves a rack. */
  method MeasureLocality(view: seq<Resource>, workers: seq<nat>) returns (r: Locality)
    requires ViewOk(view) && forall i :: 0 <= i < |workers| ==> Has(view, workers[i])
    ensures r.racks == |RackSet(RacksOf(view, workers))|
    ensures r.nics == |NicSet(view, workers)|
    ensures r.crossRackRingEdges == |Crossings(RacksOf(view, workers))|
  {
    hide RackSet, NicSet, NicOf, RackOf, CrossingsUpTo;
    var lookup := Lookup(view);
    var racks: set<nat>, nics: set<nat>, edges := {}, {}, 0;
    ghost var column := RacksOf(view, workers);
    NothingYet(view, workers);
    for index := 0 to |workers|
      invariant racks == RackSet(RacksOf(view, workers[..index])) && nics == NicSet(view, workers[..index])
      invariant edges == |CrossingsUpTo(column, index)|
    {
      var gpu := lookup[workers[index]];
      RackOfIs(view, gpu);
      NicOfIs(view, gpu);
      SetsNext(view, workers, index);
      racks := racks + {gpu.rack};
      nics := nics + {gpu.nic};
      var next := lookup[workers[Successor(index, |workers|)]];
      RackOfIs(view, next);
      CrossingsNext(column, index);
      if gpu.rack != next.rack {
        edges := edges + 1;
      }
    }
    assert workers[..|workers|] == workers;
    AllCrossings(column);
    return Locality(|racks|, |nics|, edges);
  }

  lemma NothingYet(view: seq<Resource>, workers: seq<nat>)
    ensures RackSet(RacksOf(view, workers[..0])) == {} && NicSet(view, workers[..0]) == {}
    ensures CrossingsUpTo(RacksOf(view, workers), 0) == {}
  {
  }

  lemma AllCrossings(racks: seq<nat>)
    ensures CrossingsUpTo(racks, |racks|) == Crossings(racks)
  {
  }

  /** Free GPUs per rack. */
  ghost function FreeIn(view: seq<Resource>, rack: nat): nat {
    multiset(Column(FreeOf(view)))[rack]
  }

  /** The counts over a prefix of the view. */
  ghost predicate Tallied(view: seq<Resource>, free: map<nat, nat>, total: nat, largest: nat) {
    && total == |FreeOf(view)| && largest <= total
    && (forall rack :: Get(free, rack) == FreeIn(view, rack) <= largest)
    && (total > 0 ==> exists rack :: FreeIn(view, rack) == largest)
  }

  lemma FreeInNext(view: seq<Resource>, r: Resource, rack: nat)
    ensures FreeOf(view + [r]) == if Free(r) then FreeOf(view) + [r] else FreeOf(view)
    ensures FreeIn(view + [r], rack) == FreeIn(view, rack) + (if Free(r) && r.rack == rack then 1 else 0)
  {
    assert (view + [r])[..|view|] == view;
    if Free(r) {
      ColumnSplit(FreeOf(view), [r]);
    }
  }

  lemma TalliedNext(view: seq<Resource>, r: Resource, free: map<nat, nat>, total: nat, largest: nat)
    requires Tallied(view, free, total, largest)
    ensures var more := Get(free, r.rack) + 1;
            if Free(r) then Tallied(view + [r], free[r.rack := more], total + 1, if more > largest then more
                                    else largest)
            else Tallied(view + [r], free, total, largest)
  {
    hide FreeIn, FreeOf, Free;
    forall rack ensures FreeIn(view + [r], rack) == FreeIn(view, rack) + (if Free(r) && r.rack == rack then 1 else 0) {
      FreeInNext(view, r, rack);
    }
    FreeInNext(view, r, 0);
    if Free(r) {
      var more := Get(free, r.rack) + 1;
      if more > largest {
        assert FreeIn(view + [r], r.rack) == more;
      } else {
        var rack :| FreeIn(view, rack) == largest;
        assert FreeIn(view + [r], rack) == largest;
      }
    } else if total > 0 {
      var rack :| FreeIn(view, rack) == largest;
      assert FreeIn(view + [r], rack) == largest;
    }
  }

  /** `fragmentation`: free GPUs outside the rack that has most of them. */
  method Fragmentation(view: seq<Resource>) returns (r: nat)
    ensures r <= |FreeOf(view)|
    ensures forall rack :: FreeIn(view, rack) <= |FreeOf(view)| - r
    ensures FreeOf(view) != [] ==> exists rack :: FreeIn(view, rack) == |FreeOf(view)| - r
  {
    hide FreeOf, FreeIn;
    var free: map<nat, nat> := map[];
    var total, largest := 0, 0;
    TalliedNone(view[..0]);
    for i := 0 to |view|
      invariant Tallied(view[..i], free, total, largest)
    {
      TalliedNext(view[..i], view[i], free, total, largest);
      assert view[..i + 1] == view[..i] + [view[i]];
      if view[i].healthy && view[i].owner == None {
        total := total + 1;
        var more := Get(free, view[i].rack) + 1;
        free := free[view[i].rack := more];
        if more > largest {
          largest := more;
        }
      }
    }
    assert view[..|view|] == view;
    return total - largest;
  }

  lemma TalliedNone(view: seq<Resource>)
    requires view == []
    ensures Tallied(view, map[], 0, 0)
  {
  }
}
