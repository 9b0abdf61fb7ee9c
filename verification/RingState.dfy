/**
 The state of one Ring AllReduce in `simulator/src/collective/runtime.cpp`: its record, the transfers
 of the current round that are still under way, and what every rank holds of every shard.
 */
module RingState {
  import opened Prelude
  import opened Events
  import opened RingPlanner

  datatype CollectiveRequest = CollectiveRequest(participants: seq<nat>, bytes: nat, chunkBytes: nat)

  datatype CollectiveResult = CollectiveResult(
    id: nat, outcome: Phase, started: nat, finished: nat,
    planned: nat, issuedFabric: nat, issuedLocal: nat, delivered: nat)

  datatype Record = Record(
    request: CollectiveRequest, result: CollectiveResult, phase: Phase, round: nat, pending: nat,
    failed: bool, cancelled: bool, finished: bool)
  {
    function Stage(): Stage {
      Round(|request.participants|, request.bytes, phase, round)
    }
  }

  /** A round of a collective. */
  datatype Stage = Round(n: nat, bytes: nat, phase: Phase, round: nat) {
    predicate Running() {
      n >= 2 && round < n - 1 && bytes > 0 && (phase == ReduceScatter || phase == AllGather)
    }

    /** Rounds counted across both phases. */
    ghost function Position(): nat
      requires Running()
    {
      GlobalRound(n, phase, round)
    }

    function Transfer(rank: nat): RingTransfer
      requires Running() && rank < n
    {
      Planned(n, bytes, phase, round, rank)
    }

    /** Bytes all rounds up to this one move. */
    ghost function Due(): nat
      requires Running()
    {
      (Position() + 1) * bytes
    }
  }

  /** A transfer under way: its ID in the transport runtime or in the event queue, and the data it carries. */
  datatype Ticket = Ticket(fabric: bool, id: nat, payload: multiset<nat>)

  /** What each rank holds, shard by shard: `board[shard][rank]`. */
  type Board = seq<seq<multiset<nat>>>

  datatype Course = Course(record: Record, open: map<nat, Ticket>, board: Board)

  /** Bytes of the round's first m transfers that are under way or, from rank k on, still to be issued. */
  ghost function Outstanding(st: Stage, open: map<nat, Ticket>, k: nat, m: nat): nat
    requires st.Running() && m <= st.n
  {
    if m == 0 then 0
    else Outstanding(st, open, k, m - 1) + (if Expected(open, k, m - 1) then st.Transfer(m - 1).bytes else 0)
  }

  /** Whether a rank's transfer of this round has yet to arrive, when ranks from k on are not issued yet. */
  ghost predicate Expected(open: map<nat, Ticket>, k: nat, rank: nat) {
    rank in open || rank >= k
  }

  /** Each shard is where its journey has it, and each ticket carries what its sender held. */
  ghost predicate BoardOk(st: Stage, open: map<nat, Ticket>, board: Board, k: nat)
    requires st.Running()
  {
    && |board| == st.n
    && (forall s :: 0 <= s < st.n && ShardBytes(st.n, st.bytes, s) > 0 ==> board[s] == Sofar(st, open, k, s))
    && (forall rank :: rank in open ==> rank < st.n && Carries(st, open, rank))
  }

  /** What the ranks hold of a shard in the course of a round. */
  ghost function Sofar(st: Stage, open: map<nat, Ticket>, k: nat, s: nat): seq<multiset<nat>>
    requires st.Running()
  {
    var g := st.Position();
    Column(st.n, s, if Expected(open, k, Holder(st.n, s, g)) then g else g + 1)
  }

  ghost predicate Carries(st: Stage, open: map<nat, Ticket>, rank: nat)
    requires st.Running() && rank < st.n && rank in open
  {
    open[rank].payload == Column(st.n, st.Transfer(rank).shard, st.Position())[rank]
  }

  /** Delivered and issued bytes add up to what was due, short of it only after a failure. */
  ghost predicate BytesOk(st: Stage, open: map<nat, Ticket>, k: nat, delivered: nat, issued: nat, failed: bool)
    requires st.Running()
  {
    && delivered + Outstanding(st, open, k, st.n) <= st.Due()
    && issued + Outstanding(st, map[], k, st.n) <= st.Due()
    && (!failed ==> delivered + Outstanding(st, open, k, st.n) == st.Due())
    && (!failed ==> issued + Outstanding(st, map[], k, st.n) == st.Due())
  }

  ghost predicate TicketsFit(st: Stage, open: map<nat, Ticket>, k: nat)
    requires st.Running() && k <= st.n
  {
    forall rank :: rank in open ==> rank < k && st.Transfer(rank).bytes > 0
  }

  /** The round under way, with the transfers of ranks from k on still to be issued. */
  ghost predicate RoundOk(c: Course, k: nat) {
    var r, st := c.record, c.record.Stage();
    && st.Running() && k <= st.n && !r.finished
    && TicketsFit(st, c.open, k)
    && r.pending == |c.open|
    && BytesOk(st, c.open, k, r.result.delivered, r.result.issuedFabric + r.result.issuedLocal, r.failed)
    && (!r.failed ==> BoardOk(st, c.open, c.board, k))
  }

  /** A finished collective. Success means that everything planned arrived and every rank holds the whole sum. */
  ghost predicate FinishedOk(c: Course) {
    var r := c.record;
    && r.finished && c.open == map[] && r.pending == 0
    && r.phase == r.result.outcome == (if r.cancelled then Cancelled else if r.failed then Failed else Succeeded)
    && r.result.delivered <= r.result.planned && r.result.issuedFabric + r.result.issuedLocal <= r.result.planned
    && (r.phase == Succeeded ==>
          && r.result.delivered == r.result.planned == r.result.issuedFabric + r.result.issuedLocal
          && Reduced(r.Stage().n, r.Stage().bytes, c.board))
  }

  /** Every rank holds every nonempty shard with every rank's contribution exactly once. */
  ghost predicate Reduced(n: nat, bytes: nat, board: Board) {
    && 0 < n == |board|
    && forall s, rank :: 0 <= s < n && 0 <= rank < n && ShardBytes(n, bytes, s) > 0 ==>
         |board[s]| == n && Complete(n, board[s][rank])
  }

  ghost predicate PlanOk(r: Record) {
    var st := r.Stage();
    1 <= st.n <= 8192 && st.bytes > 0 && r.request.chunkBytes > 0 && r.result.planned == Whole(st) <= U64_MAX
  }

  /** What `planned_volume` plans. */
  ghost function Whole(st: Stage): nat
    requires st.n >= 1
  {
    2 * (st.n - 1) * st.bytes
  }

  /** A collective between two events: finished, or waiting for at least one transfer of its round. */
  ghost predicate CourseOk(c: Course) {
    && PlanOk(c.record)
    && if c.record.finished then FinishedOk(c)
       else RoundOk(c, c.record.Stage().n) && c.record.pending > 0
  }

  // Sums

  lemma {:induction false} OutstandingAll(st: Stage, open: map<nat, Ticket>, m: nat)
    requires st.Running() && m <= st.n
    ensures Outstanding(st, open, 0, m) == Volume(st.n, st.bytes, ShardAt(st.n, st.phase, st.round, 0), m)
  {
    if m > 0 {
      OutstandingAll(st, open, m - 1);
      ShardsAscend(st.n, st.phase, st.round, m - 1);
    }
  }

  /** Before anything is issued, a whole vector is outstanding. */
  lemma OutstandingVector(st: Stage, open: map<nat, Ticket>)
    requires st.Running()
    ensures Outstanding(st, open, 0, st.n) == st.bytes
  {
    var start := ShardAt(st.n, st.phase, st.round, 0);
    OutstandingAll(st, open, st.n);
    hide *;
    VolumeRotates(st.n, st.bytes, start);
    WholeVolume(st.n, st.bytes);
  }

  /** Moving on from rank k without issuing it takes its bytes off. */
  lemma {:induction false} OutstandingPasses(st: Stage, open: map<nat, Ticket>, k: nat, m: nat)
    requires st.Running() && m <= st.n && k < st.n && k !in open
    ensures Outstanding(st, open, k, m) == Outstanding(st, open, k + 1, m) + (if k < m then st.Transfer(k).bytes else 0)
  {
    hide Stage.Transfer;
    if m > 0 {
      OutstandingPasses(st, open, k, m - 1);
    }
  }

  /** Closing a ticket takes its bytes off. */
  lemma {:induction false} OutstandingCloses(st: Stage, open: map<nat, Ticket>, rank: nat, k: nat, m: nat)
    requires st.Running() && m <= st.n && rank in open && rank < k && rank < st.n
    ensures Outstanding(st, open, k, m) == Outstanding(st, open - {rank}, k, m)
            + (if rank < m then st.Transfer(rank).bytes else 0)
  {
    hide Stage.Transfer;
    if m > 0 {
      OutstandingCloses(st, open, rank, k, m - 1);
    }
  }

  lemma {:induction false} OutstandingNone(st: Stage, open: map<nat, Ticket>, m: nat)
    requires st.Running() && m <= st.n && open == map[]
    ensures Outstanding(st, open, st.n, m) == 0
  {
    if m > 0 {
      OutstandingNone(st, open, m - 1);
    }
  }

  /** Issuing rank k leaves the sum of what is outstanding as it was. */
  lemma {:induction false} OutstandingIssues(st: Stage, open: map<nat, Ticket>, k: nat, ticket: Ticket, m: nat)
    requires st.Running() && m <= st.n && k < st.n
    ensures Outstanding(st, open[k := ticket], k + 1, m) == Outstanding(st, open, k, m)
  {
    hide Stage.Transfer;
    if m > 0 {
      OutstandingIssues(st, open, k, ticket, m - 1);
    }
  }

  lemma Sizes(open: map<nat, Ticket>, rank: nat, ticket: Ticket)
    ensures rank !in open ==> |open[rank := ticket]| == |open| + 1
    ensures rank in open ==> |open - {rank}| == |open| - 1
    ensures |open| == 0 <==> open == map[]
  {
    if rank in open {
      assert (open - {rank}).Keys == open.Keys - {rank};
    } else {
      assert open[rank := ticket].Keys == open.Keys + {rank};
    }
  }
}
