/**
 The Ring AllReduce schedule of `simulator/src/collective/planner.cpp` and what it does to data.

 A shard's journey is followed on its own: `Column(n, s, g)` is what the n ranks hold of shard s
 after its first g planned transfers, the first n - 1 of which reduce and the rest of which copy.
 */
module RingPlanner {
  import opened Prelude
  import opened Events

  datatype RingTransfer = RingTransfer(source: nat, destination: nat, shard: nat, bytes: nat)

  function PlannedVolume(participants: nat, bytes: nat): (r: Result<nat>)
    ensures r.Ok? <==> (1 <= participants <= 8192 && 0 < bytes && 2 * (participants - 1) * bytes <= U64_MAX)
  {
    if participants == 0 || participants > 8192 || bytes == 0 then Throw(InvalidArgument)
    else
      var factor := 2 * (participants - 1);
      if factor != 0 && bytes > U64_MAX / factor then
        assert factor * (U64_MAX / factor + 1) > U64_MAX;
        assert factor * bytes >= factor * (U64_MAX / factor + 1);
        Throw(OverflowError)
      else
        assert factor != 0 ==> factor * bytes <= factor * (U64_MAX / factor);
        Ok(factor * bytes)
  }

  function ShardAt(n: nat, phase: Phase, round: nat, rank: nat): nat
    requires n > 0 && round < n && rank < n
  {
    (rank + n - round + (if phase == AllGather then 1 else 0)) % n
  }

  function ShardBytes(n: nat, bytes: nat, shard: nat): nat
    requires n > 0
  {
    bytes / n + (if shard < bytes % n then 1 else 0)
  }

  function Planned(n: nat, bytes: nat, phase: Phase, round: nat, rank: nat): RingTransfer
    requires n > 0 && round < n && rank < n
  {
    var shard := ShardAt(n, phase, round, rank);
    RingTransfer(rank, (rank + 1) % n, shard, ShardBytes(n, bytes, shard))
  }

  method PlanRound(participants: nat, bytes: nat, phase: Phase, round: nat)
    returns (r: Result<seq<RingTransfer>>)
    ensures r.Ok? <==> (PlannedVolume(participants, bytes).Ok? && 2 <= participants &&
                        (phase == ReduceScatter || phase == AllGather) && round < participants - 1)
    ensures r.Ok? ==> |r.value| == participants &&
                      forall rank :: 0 <= rank < participants ==>
                        r.value[rank] == Planned(participants, bytes, phase, round, rank)
  {
    var volume := PlannedVolume(participants, bytes);
    if volume.Throw? {
      return Throw(volume.error);
    }
    if (phase != ReduceScatter && phase != AllGather) || participants < 2 || round >= participants - 1 {
      return Throw(InvalidArgument);
    }
    var result: seq<RingTransfer> := [];
    for rank := 0 to participants
      invariant |result| == rank
      invariant forall k :: 0 <= k < rank ==> result[k] == Planned(participants, bytes, phase, round, k)
    {
      var shard := (rank + participants - round + (if phase == AllGather then 1 else 0)) % participants;
      var size := bytes / participants + (if shard < bytes % participants then 1 else 0);
      result := result + [RingTransfer(rank, (rank + 1) % participants, shard, size)];
    }
    return Ok(result);
  }

  // Ring positions

  lemma ModSmall(x: nat, n: nat)
    requires n > 0 && x < 3 * n
    ensures x % n == if x < n then x else if x < 2 * n then x - n else x - 2 * n
  {
    var q, r := x / n, x % n;
    assert x == q * n + r;
    Scale(3, q, n);
    assert q == 0 || q == 1 || q == 2;
  }

  /** Rounds of the whole collective, counted across both phases. */
  function GlobalRound(n: nat, phase: Phase, round: nat): nat
    requires n > 0
  {
    if phase == AllGather then n - 1 + round else round
  }

  /** The rank that holds shard s before its g-th transfer, and sends it on. */
  function Holder(n: nat, shard: nat, g: nat): (rank: nat)
    requires n > 0
    ensures rank < n
  {
    (shard + g) % n
  }

  lemma HolderMoves(n: nat, shard: nat, g: nat)
    requires shard < n && g < 2 * n
    ensures Holder(n, shard, g + 1) == (Holder(n, shard, g) + 1) % n
    ensures n >= 2 ==> Holder(n, shard, g + 1) != Holder(n, shard, g)
  {
    ModSmall(shard + g, n);
    ModSmall(shard + g + 1, n);
    ModSmall(Holder(n, shard, g) + 1, n);
  }

  /** In every round the shards are a permutation of the ranks: Holder is the inverse of ShardAt. */
  lemma ShardPermutation(n: nat, phase: Phase, round: nat, rank: nat, shard: nat)
    requires n >= 2 && round < n - 1 && rank < n && shard < n
    ensures ShardAt(n, phase, round, rank) == shard
       <==> rank == Holder(n, shard, GlobalRound(n, phase, round))
  {
    var lift := if phase == AllGather then 1 else 0;
    ModSmall(rank + n - round + lift, n);
    ModSmall(shard + GlobalRound(n, phase, round), n);
  }

  /** No rank receives the shard it is sending, so deliveries of one round cannot interfere. */
  lemma SendsWhatItDoesNotReceive(n: nat, phase: Phase, round: nat, rank: nat)
    requires n >= 2 && round < n - 1 && rank < n
    ensures ShardAt(n, phase, round, (rank + 1) % n) != ShardAt(n, phase, round, rank)
  {
    var shard := ShardAt(n, phase, round, rank);
    ShardPermutation(n, phase, round, rank, shard);
    ShardPermutation(n, phase, round, (rank + 1) % n, shard);
    ModSmall(rank + 1, n);
  }

  // Byte volume

  ghost function Volume(n: nat, bytes: nat, start: nat, count: nat): nat
    requires n > 0
    decreases count
  {
    if count == 0 then 0
    else Volume(n, bytes, start, count - 1) + ShardBytes(n, bytes, (start + count - 1) % n)
  }

  /** Bytes a plan moves. */
  ghost function Moved(plan: seq<RingTransfer>): nat {
    if plan == [] then 0 else Moved(plan[..|plan| - 1]) + plan[|plan| - 1].bytes
  }

  lemma {:induction false} VolumeFromZero(n: nat, bytes: nat, count: nat)
    requires 0 < n && count <= n
    ensures Volume(n, bytes, 0, count) ==
            count * (bytes / n) + (if count < bytes % n then count else bytes % n)
  {
    if count > 0 {
      VolumeFromZero(n, bytes, count - 1);
      ModSmall(count - 1, n);
      OneMore(count - 1, bytes / n);
    }
  }

  lemma OneMore(count: nat, q: nat)
    ensures (count + 1) * q == count * q + q
  {
  }

  lemma WholeVolume(n: nat, bytes: nat)
    requires n > 0
    ensures Volume(n, bytes, 0, n) == bytes
  {
    hide Volume;
    VolumeFromZero(n, bytes, n);
  }

  lemma {:induction false} VolumeRotates(n: nat, bytes: nat, start: nat)
    requires 0 < n && start < n
    ensures Volume(n, bytes, start, n) == Volume(n, bytes, 0, n)
  {
    if start > 0 {
      VolumeShifts(n, bytes, start - 1, n);
      VolumeRotates(n, bytes, start - 1);
      ModSmall(start - 1, n);
      ModSmall(start - 1 + n, n);
    }
  }

  lemma {:induction false} VolumeShifts(n: nat, bytes: nat, start: nat, count: nat)
    requires n > 0
    ensures Volume(n, bytes, start + 1, count) + ShardBytes(n, bytes, start % n)
         == Volume(n, bytes, start, count) + ShardBytes(n, bytes, (start + count) % n)
  {
    if count > 0 {
      VolumeShifts(n, bytes, start, count - 1);
      assert start + 1 + (count - 1) == start + count;
    }
  }

  /** From rank to rank the shards of a round ascend, modulo n. */
  lemma ShardsAscend(n: nat, phase: Phase, round: nat, rank: nat)
    requires 2 <= n && round < n - 1 && rank < n
    ensures ShardAt(n, phase, round, rank) == (ShardAt(n, phase, round, 0) + rank) % n
  {
    var lift := if phase == AllGather then 1 else 0;
    ModSmall(n - round + lift, n);
    ModSmall(rank + n - round + lift, n);
    ModSmall(ShardAt(n, phase, round, 0) + rank, n);
  }

  lemma {:induction false} MovedIsVolume(n: nat, bytes: nat, phase: Phase, round: nat, plan: seq<RingTransfer>,
                                         start: nat)
    requires 2 <= n && round < n - 1 && |plan| <= n
    requires forall k :: 0 <= k < |plan| ==> plan[k] == Planned(n, bytes, phase, round, k)
    requires start == ShardAt(n, phase, round, 0)
    ensures Moved(plan) == Volume(n, bytes, start, |plan|)
  {
    if |plan| > 0 {
      var k := |plan| - 1;
      MovedIsVolume(n, bytes, phase, round, plan[..k], start);
      ShardsAscend(n, phase, round, k);
    }
  }

  /** Each round moves every byte of the vector exactly once. */
  lemma RoundMovesEverything(n: nat, bytes: nat, phase: Phase, round: nat, plan: seq<RingTransfer>)
    requires 2 <= n && round < n - 1 && |plan| == n
    requires forall k :: 0 <= k < |plan| ==> plan[k] == Planned(n, bytes, phase, round, k)
    ensures Moved(plan) == bytes
  {
    var start := ShardAt(n, phase, round, 0);
    MovedIsVolume(n, bytes, phase, round, plan, start);
    hide *;
    VolumeRotates(n, bytes, start);
    WholeVolume(n, bytes);
  }

  /** The plan of the g-th round of the whole collective. */
  ghost function PlanOf(n: nat, bytes: nat, g: nat): seq<RingTransfer>
    requires n >= 2 && g < 2 * (n - 1)
  {
    if g < n - 1 then seq(n, rank requires 0 <= rank < n => Planned(n, bytes, ReduceScatter, g, rank))
    else seq(n, rank requires 0 <= rank < n => Planned(n, bytes, AllGather, g - (n - 1), rank))
  }

  ghost function MovedBy(n: nat, bytes: nat, rounds: nat): nat
    requires n >= 2 && rounds <= 2 * (n - 1)
  {
    if rounds == 0 then 0 else MovedBy(n, bytes, rounds - 1) + Moved(PlanOf(n, bytes, rounds - 1))
  }

  lemma PlanMovesEverything(n: nat, bytes: nat, g: nat)
    requires n >= 2 && g < 2 * (n - 1)
    ensures Moved(PlanOf(n, bytes, g)) == bytes
  {
    hide Planned, Moved;
    if g < n - 1 {
      RoundMovesEverything(n, bytes, ReduceScatter, g, PlanOf(n, bytes, g));
    } else {
      RoundMovesEverything(n, bytes, AllGather, g - (n - 1), PlanOf(n, bytes, g));
    }
  }

  lemma {:induction false} MovedByRounds(n: nat, bytes: nat, rounds: nat)
    requires n >= 2 && rounds <= 2 * (n - 1)
    ensures MovedBy(n, bytes, rounds) == rounds * bytes
  {
    hide PlanOf, Moved;
    if rounds > 0 {
      MovedByRounds(n, bytes, rounds - 1);
      OneMore(rounds - 1, bytes);
      PlanMovesEverything(n, bytes, rounds - 1);
    }
  }

  /** All rounds together move exactly the planned volume. */
  lemma PlannedVolumeIsMoved(n: nat, bytes: nat)
    requires n >= 2 && PlannedVolume(n, bytes).Ok?
    ensures PlannedVolume(n, bytes).value == MovedBy(n, bytes, 2 * (n - 1))
  {
    MovedByRounds(n, bytes, 2 * (n - 1));
  }

  // Data flow

  /** Rank s's contribution and those of the j ranks after it. */
  ghost function Arc(n: nat, s: nat, j: nat): multiset<nat>
    requires n > 0
  {
    if j == 0 then multiset{s % n} else Arc(n, s, j - 1) + multiset{(s + j) % n}
  }

  /** Every rank's contribution, exactly once. */
  ghost predicate Complete(n: nat, held: multiset<nat>) {
    forall rank: nat :: held[rank] == if rank < n then 1 else 0
  }

  lemma HolderIs(n: nat, s: nat, j: nat)
    requires s < n && j < n
    ensures Holder(n, s, j) == if s + j < n then s + j else s + j - n
  {
    ModSmall(s + j, n);
  }

  lemma {:induction false} ArcCounts(n: nat, s: nat, j: nat, x: nat)
    requires s < n && j < n
    ensures Arc(n, s, j)[x] == if x < n && (if x >= s then x - s else x - s + n) <= j then 1 else 0
  {
    ArcGrows(n, s, j);
    HolderIs(n, s, j);
    hide Arc, Holder;
    if j > 0 {
      ArcCounts(n, s, j - 1, x);
    }
  }

  lemma FullArc(n: nat, s: nat)
    requires s < n
    ensures Complete(n, Arc(n, s, n - 1))
  {
    var held := Arc(n, s, n - 1);
    forall x: nat ensures held[x] == if x < n then 1 else 0 {
      ArcCounts(n, s, n - 1, x);
    }
  }

  /** One delivery of a shard: reduce in the first phase, overwrite in the second. */
  ghost function Deliver(column: seq<multiset<nat>>, source: nat, destination: nat, reduce: bool)
    : seq<multiset<nat>>
    requires source < |column| && destination < |column|
  {
    column[destination := if reduce then column[destination] + column[source] else column[source]]
  }

  /** What each rank holds of one shard after that shard's first g planned transfers. */
  ghost function Column(n: nat, shard: nat, g: nat): (c: seq<multiset<nat>>)
    requires n > 0
    ensures |c| == n
  {
    if g == 0 then seq(n, rank => multiset{rank})
    else Deliver(Column(n, shard, g - 1), Holder(n, shard, g - 1), Holder(n, shard, g), g <= n - 1)
  }

  /** Distance of a rank from a shard's first holder, along the ring. */
  function Distance(n: nat, shard: nat, rank: nat): nat
    requires shard < n && rank < n
  {
    if rank >= shard then rank - shard else rank + n - shard
  }

  lemma HolderAt(n: nat, shard: nat, g: nat, rank: nat)
    requires shard < n && rank < n && g < 2 * n
    ensures Holder(n, shard, g) == rank <==> (g == Distance(n, shard, rank) || g == Distance(n, shard, rank) + n)
  {
    ModSmall(shard + g, n);
  }

  lemma ArcGrows(n: nat, shard: nat, g: nat)
    requires shard < n
    ensures g == 0 ==> Arc(n, shard, 0) == multiset{shard}
    ensures g > 0 ==> Arc(n, shard, g) == multiset{Holder(n, shard, g)} + Arc(n, shard, g - 1)
  {
    ModSmall(shard, n);
  }

  /** During reduce-scatter a rank holds the arc up to itself once the shard has passed it. */
  lemma {:induction false} ReduceForm(n: nat, shard: nat, g: nat, rank: nat)
    requires n >= 2 && shard < n && rank < n && g <= n - 1
    ensures Column(n, shard, g)[rank] ==
            if Distance(n, shard, rank) <= g then Arc(n, shard, Distance(n, shard, rank)) else multiset{rank}
  {
    hide Holder, Arc;
    ArcGrows(n, shard, g);
    if g > 0 {
      var previous := Holder(n, shard, g - 1);
      ReduceForm(n, shard, g - 1, rank);
      ReduceForm(n, shard, g - 1, previous);
      HolderAt(n, shard, g, rank);
      HolderAt(n, shard, g - 1, previous);
    }
  }

  /** During all-gather a rank holds the complete shard once the shard has come round to it. */
  lemma {:induction false} GatherForm(n: nat, shard: nat, t: nat, rank: nat)
    requires n >= 2 && shard < n && rank < n && t <= n - 1
    requires Distance(n, shard, rank) == n - 1 || Distance(n, shard, rank) + 1 <= t
    ensures Column(n, shard, n - 1 + t)[rank] == Arc(n, shard, n - 1)
  {
    hide Holder, Arc;
    if t == 0 {
      ReduceForm(n, shard, n - 1, rank);
    } else {
      HolderAt(n, shard, n - 1 + t, rank);
      if Holder(n, shard, n - 1 + t) == rank {
        var previous := Holder(n, shard, n - 1 + (t - 1));
        HolderAt(n, shard, n - 1 + (t - 1), previous);
        GatherForm(n, shard, t - 1, previous);
      } else {
        GatherForm(n, shard, t - 1, rank);
      }
    }
  }

  /** Reduce-scatter leaves rank r with a complete shard (r + 1) mod n. */
  lemma ReduceScatterCorrect(n: nat, rank: nat)
    requires n >= 2 && rank < n
    ensures Complete(n, Column(n, (rank + 1) % n, n - 1)[rank])
  {
    ModSmall(rank + 1, n);
    ReduceForm(n, (rank + 1) % n, n - 1, rank);
    FullArc(n, (rank + 1) % n);
  }

  /** Both phases leave every rank with every shard complete: every contribution exactly once. */
  lemma AllReduceCorrect(n: nat, rank: nat, shard: nat)
    requires n >= 2 && rank < n && shard < n
    ensures Complete(n, Column(n, shard, 2 * (n - 1))[rank])
  {
    GatherForm(n, shard, n - 1, rank);
    FullArc(n, shard);
  }

  /** The planner's transfer of a shard in a round is the next step of that shard's journey. */
  lemma PlanFollowsColumn(n: nat, bytes: nat, phase: Phase, round: nat, rank: nat)
    requires n >= 2 && round < n - 1 && rank < n && (phase == ReduceScatter || phase == AllGather)
    ensures var t := Planned(n, bytes, phase, round, rank); var g := GlobalRound(n, phase, round);
            Column(n, t.shard, g + 1) ==
            Deliver(Column(n, t.shard, g), t.source, t.destination, phase == ReduceScatter)
  {
    var t, g := Planned(n, bytes, phase, round, rank), GlobalRound(n, phase, round);
    ShardPermutation(n, phase, round, rank, t.shard);
    HolderMoves(n, t.shard, g);
  }
}
