/** The steps of one Ring AllReduce, and what each of them keeps. */
module RingSteps {
  import opened Prelude
  import opened Events
  import opened RingPlanner
  import opened RingState

  /** The sender's copy of the shard it sends. */
  ghost function PayloadOf(st: Stage, board: Board, rank: nat): multiset<nat>
    requires st.Running() && rank < st.n
  {
    var shard := st.Transfer(rank).shard;
    if shard < |board| && rank < |board[shard]| then board[shard][rank] else multiset{}
  }

  function WithIssued(r: Record, bytes: nat, fabric: bool): Record {
    r.(pending := r.pending + 1,
       result := if fabric then r.result.(issuedFabric := r.result.issuedFabric + bytes)
       else r.result.(issuedLocal := r.result.issuedLocal + bytes))
  }

  /** Rank k's transfer is issued. */
  ghost function Issued(c: Course, k: nat, fabric: bool, id: nat): Course
    requires c.record.Stage().Running() && k < c.record.Stage().n
  {
    var st := c.record.Stage();
    Course(WithIssued(c.record, st.Transfer(k).bytes, fabric),
           c.open[k := Ticket(fabric, id, PayloadOf(st, c.board, k))], c.board)
  }

  /** The board does not notice which transfers are issued. */
  lemma BoardIssues(st: Stage, open: map<nat, Ticket>, board: Board, k: nat, fabric: bool, id: nat)
    requires st.Running() && k < st.n && k !in open && BoardOk(st, open, board, k) && st.Transfer(k).bytes > 0
    ensures BoardOk(st, open[k := Ticket(fabric, id, PayloadOf(st, board, k))], board, k + 1)
  {
    var open' := open[k := Ticket(fabric, id, PayloadOf(st, board, k))];
    var t := st.Transfer(k);
    ShardPermutation(st.n, st.phase, st.round, k, t.shard);
    hide Column, Holder, ShardAt, ShardBytes;
    assert forall rank :: Expected(open, k, rank) == Expected(open', k + 1, rank);
    assert board[t.shard] == Sofar(st, open, k, t.shard);
    forall rank | rank in open' ensures rank < st.n && Carries(st, open', rank) {
      assert rank != k ==> Carries(st, open, rank);
    }
  }

  lemma BytesIssue(st: Stage, open: map<nat, Ticket>, k: nat, ticket: Ticket, delivered: nat, issued: nat, failed: bool)
    requires st.Running() && k < st.n && BytesOk(st, open, k, delivered, issued, failed)
    ensures BytesOk(st, open[k := ticket], k + 1, delivered, issued + st.Transfer(k).bytes, failed)
  {
    hide Stage.Due, Outstanding, Stage.Transfer;
    OutstandingIssues(st, open, k, ticket, st.n);
    OutstandingPasses(st, map[], k, st.n);
  }

  lemma IssueKeeps(c: Course, k: nat, fabric: bool, id: nat)
    requires RoundOk(c, k) && k < c.record.Stage().n && !c.record.failed && c.record.Stage().Transfer(k).bytes > 0
    ensures RoundOk(Issued(c, k, fabric, id), k + 1)
  {
    hide BoardOk, BytesOk, Stage.Transfer;
    var r, st, c' := c.record, c.record.Stage(), Issued(c, k, fabric, id);
    BoardIssues(st, c.open, c.board, k, fabric, id);
    BytesIssue(st, c.open, k, c'.open[k], r.result.delivered, r.result.issuedFabric + r.result.issuedLocal, r.failed);
    Sizes(c.open, k, c'.open[k]);
  }

  lemma BytesPass(st: Stage, open: map<nat, Ticket>, k: nat, delivered: nat, issued: nat, failed: bool)
    requires st.Running() && k < st.n && k !in open && BytesOk(st, open, k, delivered, issued, failed)
    ensures BytesOk(st, open, k + 1, delivered, issued, failed || st.Transfer(k).bytes > 0)
  {
    hide Stage.Due, Outstanding, Stage.Transfer;
    OutstandingPasses(st, open, k, st.n);
    OutstandingPasses(st, map[], k, st.n);
  }

  lemma BoardPasses(st: Stage, open: map<nat, Ticket>, board: Board, k: nat)
    requires st.Running() && k < st.n && BoardOk(st, open, board, k) && st.Transfer(k).bytes == 0
    ensures BoardOk(st, open, board, k + 1)
  {
    hide Column;
    forall s | 0 <= s < st.n && ShardBytes(st.n, st.bytes, s) > 0 ensures board[s] == Sofar(st, open, k + 1, s) {
      ShardPermutation(st.n, st.phase, st.round, k, s);
      assert Expected(open, k, Holder(st.n, s, st.Position())) == Expected(open, k + 1, Holder(st.n, s, st.Position()));
    }
  }

  /** An empty shard is not sent, and after a failure nothing is. */
  lemma PassKeeps(c: Course, k: nat)
    requires RoundOk(c, k) && k < c.record.Stage().n && (c.record.failed || c.record.Stage().Transfer(k).bytes == 0)
    ensures RoundOk(c, k + 1)
  {
    hide BoardOk, BytesOk, Stage.Transfer;
    var r, st := c.record, c.record.Stage();
    if !r.failed {
      BoardPasses(st, c.open, c.board, k);
    }
    BytesPass(st, c.open, k, r.result.delivered, r.result.issuedFabric + r.result.issuedLocal, r.failed);
  }

  ghost function NoRoute(c: Course): Course {
    c.(record := c.record.(failed := true))
  }

  lemma BytesFail(st: Stage, open: map<nat, Ticket>, k: nat, delivered: nat, issued: nat, failed: bool)
    requires st.Running() && BytesOk(st, open, k, delivered, issued, failed)
    ensures BytesOk(st, open, k, delivered, issued, true)
  {
    hide Stage.Due, Outstanding;
  }

  lemma NoRouteKeeps(c: Course, k: nat)
    requires RoundOk(c, k) && k < c.record.Stage().n
    ensures RoundOk(NoRoute(c), k + 1)
  {
    hide BoardOk, BytesOk, Stage.Transfer;
    var r, st := c.record, c.record.Stage();
    var issued := r.result.issuedFabric + r.result.issuedLocal;
    BytesFail(st, c.open, k, r.result.delivered, issued, r.failed);
    BytesPass(st, c.open, k, r.result.delivered, issued, true);
  }

  /** What the destination makes of a payload: reduce in the first phase, overwrite in the second. */
  ghost function Received(st: Stage, board: Board, rank: nat, payload: multiset<nat>): Board
    requires st.Running() && rank < st.n
  {
    var t := st.Transfer(rank);
    if t.shard < |board| && t.destination < |board[t.shard]| then
      var column := board[t.shard];
      board[t.shard := column[t.destination :=
        if st.phase == ReduceScatter then column[t.destination] + payload else payload]]
    else board
  }

  function WithDelivered(r: Record, bytes: nat, failed: bool): Record
    requires r.pending > 0
  {
    r.(pending := r.pending - 1, result := r.result.(delivered := r.result.delivered + bytes), failed := failed)
  }

  /** A transfer arrives in full. */
  ghost function Arrived(c: Course, rank: nat): Course
    requires c.record.Stage().Running() && rank < c.record.Stage().n && rank in c.open && c.record.pending > 0
  {
    var st := c.record.Stage();
    Course(WithDelivered(c.record, st.Transfer(rank).bytes, c.record.failed),
           c.open - {rank}, Received(st, c.board, rank, c.open[rank].payload))
  }

  /** A transfer fails after some of its bytes got through. */
  ghost function Lost(c: Course, rank: nat, bytes: nat): Course
    requires c.record.pending > 0
  {
    Course(WithDelivered(c.record, bytes, true), c.open - {rank}, c.board)
  }

  /** What a planned transfer is, and whose turn it is to send its shard. */
  lemma TransferFacts(st: Stage, rank: nat)
    requires st.Running() && rank < st.n
    ensures var t := st.Transfer(rank);
            && t.source == rank && t.destination < st.n && t.shard < st.n
            && t.bytes == ShardBytes(st.n, st.bytes, t.shard)
            && Column(st.n, t.shard, st.Position() + 1) ==
               Deliver(Column(st.n, t.shard, st.Position()), rank, t.destination, st.phase == ReduceScatter)
    ensures forall s :: 0 <= s < st.n ==> (Holder(st.n, s, st.Position()) == rank <==> s == st.Transfer(rank).shard)
  {
    PlanFollowsColumn(st.n, st.bytes, st.phase, st.round, rank);
    hide Column, Holder, ShardAt, Deliver;
    forall s | 0 <= s < st.n ensures Holder(st.n, s, st.Position()) == rank <==> s == st.Transfer(rank).shard {
      ShardPermutation(st.n, st.phase, st.round, rank, s);
    }
  }

  /** The step an arriving shard takes is the next one of its journey. */
  lemma ShardReceives(st: Stage, open: map<nat, Ticket>, board: Board, rank: nat)
    requires st.Running() && rank in open && rank < st.n && BoardOk(st, open, board, st.n)
    requires st.Transfer(rank).bytes > 0
    ensures var board', s := Received(st, board, rank, open[rank].payload), st.Transfer(rank).shard;
            && s < |board| == |board'| && board' == board[s := board'[s]]
            && board'[s] == Column(st.n, s, st.Position() + 1)
  {
    hide Column, Holder, ShardAt, ShardBytes, Stage.Transfer, Stage.Position;
    TransferFacts(st, rank);
    assert board[st.Transfer(rank).shard] == Sofar(st, open, st.n, st.Transfer(rank).shard);
    assert Carries(st, open, rank);
  }

  /** An arrival is the next step of its shard's journey; no other shard moves. */
  lemma BoardReceives(st: Stage, open: map<nat, Ticket>, board: Board, rank: nat)
    requires st.Running() && rank in open && rank < st.n && BoardOk(st, open, board, st.n)
    requires st.Transfer(rank).bytes > 0
    ensures BoardOk(st, open - {rank}, Received(st, board, rank, open[rank].payload), st.n)
  {
    hide Column, Holder, ShardAt, ShardBytes, Stage.Transfer, Stage.Position, Received;
    var n, board', open' := st.n, Received(st, board, rank, open[rank].payload), open - {rank};
    TransferFacts(st, rank);
    ShardReceives(st, open, board, rank);
    forall s | 0 <= s < n && ShardBytes(n, st.bytes, s) > 0 ensures board'[s] == Sofar(st, open', n, s) {
      assert board[s] == Sofar(st, open, n, s);
    }
    forall other | other in open' ensures other < n && Carries(st, open', other) {
      assert Carries(st, open, other);
    }
  }

  lemma BytesArrive(st: Stage, open: map<nat, Ticket>, rank: nat, delivered: nat, issued: nat, bytes: nat, failed: bool)
    requires st.Running() && rank in open && rank < st.n && BytesOk(st, open, st.n, delivered, issued, failed)
    requires bytes <= st.Transfer(rank).bytes && (!failed ==> bytes == st.Transfer(rank).bytes)
    ensures BytesOk(st, open - {rank}, st.n, delivered + bytes, issued, failed)
  {
    hide Stage.Due, Outstanding, Stage.Transfer;
    OutstandingCloses(st, open, rank, st.n, st.n);
  }

  lemma ArriveKeeps(c: Course, rank: nat)
    requires RoundOk(c, c.record.Stage().n) && rank in c.open
    ensures rank < c.record.Stage().n && c.record.pending > 0 && RoundOk(Arrived(c, rank), c.record.Stage().n)
  {
    hide BoardOk, BytesOk, Stage.Transfer, Received;
    var r, st := c.record, c.record.Stage();
    Sizes(c.open, rank, c.open[rank]);
    if !r.failed {
      BoardReceives(st, c.open, c.board, rank);
    }
    BytesArrive(st, c.open, rank, r.result.delivered, r.result.issuedFabric + r.result.issuedLocal,
                st.Transfer(rank).bytes, r.failed);
  }

  lemma LoseKeeps(c: Course, rank: nat, bytes: nat)
    requires RoundOk(c, c.record.Stage().n) && rank in c.open
    requires rank < c.record.Stage().n ==> bytes <= c.record.Stage().Transfer(rank).bytes
    ensures c.record.pending > 0 && RoundOk(Lost(c, rank, bytes), c.record.Stage().n)
  {
    hide BoardOk, BytesOk, Stage.Transfer;
    var r, st := c.record, c.record.Stage();
    Sizes(c.open, rank, c.open[rank]);
    var issued := r.result.issuedFabric + r.result.issuedLocal;
    BytesFail(st, c.open, st.n, r.result.delivered, issued, r.failed);
    BytesArrive(st, c.open, rank, r.result.delivered, issued, bytes, true);
  }

  /** Cancelling sets a flag. */
  lemma CancelKeeps(c: Course)
    requires CourseOk(c) && !c.record.finished
    ensures CourseOk(c.(record := c.record.(cancelled := true)))
  {
    hide BoardOk, BytesOk, Stage.Transfer;
    assert c.record.(cancelled := true).Stage() == c.record.Stage();
  }

  // Rounds

  /** The record of the next round, or none after the last one. */
  function Next(r: Record): (next: Option<Record>)
    requires r.Stage().Running()
    ensures next.Some? ==> next.value.Stage().Running()
  {
    if r.round + 1 < |r.request.participants| - 1 then Some(r.(round := r.round + 1))
    else if r.phase == AllGather then None
    else Some(r.(phase := AllGather, round := 0))
  }

  lemma NextPosition(r: Record)
    requires r.Stage().Running()
    ensures Next(r).Some? ==> Next(r).value.Stage().Position() == r.Stage().Position() + 1
                              && Next(r).value.Stage().Due() == r.Stage().Due() + r.request.bytes
    ensures Next(r) == None ==> r.Stage().Position() + 1 == 2 * (r.Stage().n - 1) && r.Stage().Due() == Whole(r.Stage())
    ensures r.Stage().Position() + 1 <= 2 * (r.Stage().n - 1) && r.Stage().Due() <= Whole(r.Stage())
  {
    var st := r.Stage();
    Scale(st.Position() + 1, 2 * (st.n - 1), st.bytes);
    OneMore(st.Position() + 1, st.bytes);
  }

  /** A round begins with every transfer still to be issued. */
  ghost predicate AtStart(c: Course) {
    var r, st := c.record, c.record.Stage();
    && st.Running() && !r.finished && c.open == map[] && r.pending == 0 && !r.failed
    && r.result.delivered + st.bytes == st.Due()
    && r.result.issuedFabric + r.result.issuedLocal + st.bytes == st.Due()
    && BoardAt(st, c.board, st.Position())
  }

  /** Every nonempty shard has taken the first g steps of its journey. */
  ghost predicate BoardAt(st: Stage, board: Board, g: nat)
    requires st.Running()
  {
    && |board| == st.n
    && forall s :: 0 <= s < st.n && ShardBytes(st.n, st.bytes, s) > 0 ==> board[s] == Column(st.n, s, g)
  }

  lemma StartKeeps(c: Course)
    requires AtStart(c)
    ensures RoundOk(c, 0)
  {
    hide Stage.Due, Outstanding, Stage.Transfer, Column, Stage.Position;
    OutstandingVector(c.record.Stage(), c.open);
    OutstandingVector(c.record.Stage(), map[]);
    Sizes(c.open, 0, Ticket(false, 0, multiset{}));
  }

  /** The barrier: once nothing is pending, every shard has taken its step and the next round may begin. */
  lemma BarrierReached(c: Course)
    requires RoundOk(c, c.record.Stage().n) && c.record.pending == 0 && !c.record.failed
    ensures c.open == map[]
    ensures var st, result := c.record.Stage(), c.record.result;
            && result.delivered == result.issuedFabric + result.issuedLocal == st.Due()
            && BoardAt(st, c.board, st.Position() + 1)
  {
    hide Stage.Due, Outstanding, Stage.Transfer, Column, Stage.Position;
    var st := c.record.Stage();
    Sizes(c.open, 0, Ticket(false, 0, multiset{}));
    OutstandingNone(st, c.open, st.n);
    OutstandingNone(st, map[], st.n);
    forall s | 0 <= s < st.n && ShardBytes(st.n, st.bytes, s) > 0
      ensures c.board[s] == Column(st.n, s, st.Position() + 1)
    {
      assert c.board[s] == Sofar(st, c.open, st.n, s);
    }
  }

  lemma NextStarts(c: Course)
    requires RoundOk(c, c.record.Stage().n) && c.record.pending == 0 && !c.record.failed && Next(c.record).Some?
    ensures AtStart(c.(record := Next(c.record).value))
  {
    BarrierReached(c);
    NextPosition(c.record);
    hide BytesOk, BoardOk, TicketsFit, Stage.Position, Stage.Due, Column, ShardBytes;
  }

  function Outcome(r: Record): Phase {
    if r.cancelled then Cancelled else if r.failed then Failed else Succeeded
  }

  function Finished(r: Record, now: nat): Record {
    r.(finished := true, phase := Outcome(r), result := r.result.(outcome := Outcome(r), finished := now))
  }

  lemma BoardReduced(st: Stage, board: Board)
    requires st.Running() && BoardAt(st, board, 2 * (st.n - 1))
    ensures Reduced(st.n, st.bytes, board)
  {
    hide Column, Complete;
    forall s, rank | 0 <= s < st.n && 0 <= rank < st.n && ShardBytes(st.n, st.bytes, s) > 0
      ensures |board[s]| == st.n && Complete(st.n, board[s][rank])
    {
      AllReduceCorrect(st.n, rank, s);
    }
  }

  lemma WholeAnyRound(st: Stage, st': Stage)
    requires st'.n == st.n >= 1 && st'.bytes == st.bytes
    ensures Whole(st') == Whole(st)
  {
  }

  /** Finishing once nothing is pending: on success the data is reduced and every planned byte has arrived. */
  lemma FinishKeeps(c: Course, now: nat)
    requires PlanOk(c.record) && RoundOk(c, c.record.Stage().n) && c.record.pending == 0
    requires c.record.failed || c.record.cancelled || Next(c.record) == None
    ensures CourseOk(c.(record := Finished(c.record, now)))
    ensures Outcome(c.record) == Succeeded ==> c.record.result.delivered == c.record.result.planned
  {
    var r, st := c.record, c.record.Stage();
    hide Outstanding, BoardOk, Stage.Position, Stage.Due, Stage.Transfer, TicketsFit, Reduced, BoardAt, Whole;
    Sizes(c.open, 0, Ticket(false, 0, multiset{}));
    NextPosition(r);
    if Outcome(r) == Succeeded {
      BarrierReached(c);
      BoardReduced(st, c.board);
    }
    WholeAnyRound(st, Finished(r, now).Stage());
  }

  /** Every round sends at least one shard. */
  lemma SomethingToSend(st: Stage) returns (rank: nat)
    requires st.Running()
    ensures rank < st.n && st.Transfer(rank).bytes > 0
  {
    rank := Holder(st.n, 0, st.Position());
    ShardPermutation(st.n, st.phase, st.round, rank, 0);
    if st.bytes / st.n == 0 {
      assert st.bytes % st.n == st.bytes - st.n * (st.bytes / st.n);
    }
  }

  /** A ring of one has nothing to move. */
  lemma AloneIsDone(c: Course, now: nat)
    requires PlanOk(c.record) && c.record.Stage().n == 1 && c.open == map[] && c.record.pending == 0
    requires !c.record.failed && !c.record.cancelled && c.board == [[multiset{0}]]
    requires c.record.result.delivered == c.record.result.issuedFabric == c.record.result.issuedLocal == 0
    ensures CourseOk(c.(record := Finished(c.record, now)))
  {
  }
}
