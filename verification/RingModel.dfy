/** What arrivals, submissions and a drained queue mean for the collectives under way. */
module RingModel {
  import opened Prelude
  import opened Events
  import opened Links
  import opened RingPlanner
  import opened RingState
  import opened RingSteps
  import opened TransportState
  import opened RingTables

  /** A listed ticket belongs to an unfinished collective that is waiting for it. */
  lemma OpenIsWaiting(ring: Ring, c: nat, rank: nat, fabric: bool, id: nat)
    requires CoursesOk(ring.courses) && TablesOk(ring) && Open(ring, c, rank, fabric, id)
    ensures var course := ring.courses[c];
            && !course.record.finished && RoundOk(course, course.record.Stage().n) && PlanOk(course.record)
            && course.record.Stage().Running() && rank < course.record.Stage().n && course.record.pending > 0
            && Listed(ring, c, rank) && TicketBytes(course, rank) == course.record.Stage().Transfer(rank).bytes
  {
    var course := ring.courses[c];
    hide TransfersOpen, LocalsOpen, Listed;
    assert CourseOk(course);
    hide BytesOk, BoardOk, Reduced, Stage.Transfer;
  }

  /** The course of a collective moved on within its round. */
  lemma CourseMoves(ring: Ring, live: EventTable, ring': Ring, live': EventTable, c: nat, course: Course)
    requires CoursesOk(ring.courses) && ResultsOk(ring.courses, ring.results)
    requires c < |ring.courses| && !ring.courses[c].record.finished
             && course.record.result.id == ring.courses[c].record.result.id
    requires ring'.courses == ring.courses[c := course] && ring'.results == ring.results
    requires PlanOk(course.record) && RoundOk(course, course.record.Stage().n)
    requires TablesOk(ring') && LocalsOk(ring'.locals, live')
    ensures IssuingOk(ring', live', c, course.record.Stage().n)
  {
    hide TablesOk, LocalsOk, CourseOk, RoundOk, ResultsOk, PlanOk;
    RoundRuns(course, course.record.Stage().n);
    ResultIdOf(ring, c);
    ResultsKept(ring.courses, ring.results, c, course);
  }

  lemma ResultIdOf(ring: Ring, c: nat)
    requires ResultsOk(ring.courses, ring.results) && c < |ring.courses|
    ensures ring.courses[c].record.result.id == c
  {
  }

  /** What the guards of the local handler check always holds. */
  ghost predicate LocalExpected(ring: Ring, event: Event) {
    && event.payload.LocalCompletion? && event.id in ring.locals
    && ring.locals[event.id] == LocalPending(Pending(event.payload.collective, ring.locals[event.id].transfer.bytes),
                                             event.payload.round, event.payload.rank, event.payload.phase)
    && event.payload.collective < |ring.courses|
    && (var course := ring.courses[event.payload.collective];
        && course.record.round == event.payload.round && course.record.phase == event.payload.phase
        && event.payload.rank < course.record.Stage().n && event.payload.rank in course.open
        && course.record.Stage().Running() && course.record.pending > 0 && !course.record.finished
        && ring.locals[event.id].transfer.bytes == course.record.Stage().Transfer(event.payload.rank).bytes)
  }

  lemma LocalFinds(ring: Ring, live: EventTable, event: Event)
    requires RingOk(ring, live) && event.id in live && live[event.id] == event && event.payload.LocalCompletion?
    ensures LocalExpected(ring, event)
  {
    hide CoursesOk, AllListed, TransfersOpen, ResultsOk, Stage.Transfer, Stage.Running, TicketBytes;
    var p := ring.locals[event.id];
    assert EventOf(p) == event.payload;
    OpenIsWaiting(ring, p.transfer.collective, p.rank, false, event.id);
    hide RoundOk;
  }

  lemma LocalArrives(ring: Ring, live: EventTable, event: Event)
    requires event.id !in live && LocalExpected(ring, event) && RingOk(ring, live[event.id := event])
    ensures var c := event.payload.collective; var course := Arrived(ring.courses[c], event.payload.rank);
            IssuingOk(Closed(ring, c, course, false, event.id), live, c, course.record.Stage().n)
  {
    var c, rank := event.payload.collective, event.payload.rank;
    assert Open(ring, c, rank, false, event.id);
    hide CoursesOk, TablesOk, LocalsOk, ResultsOk, Stage.Transfer, Stage.Running, RoundOk;
    OpenIsWaiting(ring, c, rank, false, event.id);
    hide PlanOk, Listed, Open;
    ArriveKeeps(ring.courses[c], rank);
    var course := Arrived(ring.courses[c], rank);
    hide Received;
    TicketClosed(ring, c, course, rank, false, event.id);
    LocalConsumed(ring.locals, live, event);
    PlanKept(ring.courses[c].record, course.record);
    CourseMoves(ring, live[event.id := event], Closed(ring, c, course, false, event.id), live, c, course);
  }

  lemma PlanKept(r: Record, r': Record)
    requires PlanOk(r) && r'.request == r.request && r'.result.planned == r.result.planned
    ensures PlanOk(r')
  {
  }

  /** What the guards of the transfer handler check always holds. */
  ghost predicate TransferExpected(ring: Ring, t: nat) {
    && t in ring.transfers && t in ring.ranks && ring.transfers[t].collective < |ring.courses|
    && (var course, rank := ring.courses[ring.transfers[t].collective], ring.ranks[t];
        && rank < course.record.Stage().n && rank in course.open
        && course.record.Stage().Running() && course.record.pending > 0 && !course.record.finished
        && ring.transfers[t].bytes == course.record.Stage().Transfer(rank).bytes)
  }

  lemma TransferFinds(ring: Ring, live: EventTable, t: nat)
    requires RingOk(ring, live) && t in ring.transfers
    ensures TransferExpected(ring, t)
  {
    hide CoursesOk, AllListed, LocalsOpen, ResultsOk, Stage.Transfer, Stage.Running, TicketBytes;
    OpenIsWaiting(ring, ring.transfers[t].collective, ring.ranks[t], true, t);
    hide RoundOk;
  }

  /** The course after a fabric transfer has come to its end. */
  ghost function Settles(course: Course, rank: nat, succeeded: bool, bytes: nat): Course
    requires course.record.Stage().Running() && rank < course.record.Stage().n && rank in course.open
             && course.record.pending > 0
  {
    if succeeded then Arrived(course, rank) else Lost(course, rank, bytes)
  }

  lemma TransferArrives(ring: Ring, live: EventTable, t: nat, succeeded: bool, bytes: nat)
    requires TransferExpected(ring, t) && RingOk(ring, live) && bytes <= ring.transfers[t].bytes
    ensures var c := ring.transfers[t].collective;
            var course := Settles(ring.courses[c], ring.ranks[t], succeeded, bytes);
            IssuingOk(Closed(ring, c, course, true, t), live, c, course.record.Stage().n)
  {
    var c, rank := ring.transfers[t].collective, ring.ranks[t];
    assert Open(ring, c, rank, true, t) by {
      hide AllListed, LocalsOpen;
    }
    hide CoursesOk, TablesOk, LocalsOk, ResultsOk, Stage.Transfer, Stage.Running, RoundOk;
    OpenIsWaiting(ring, c, rank, true, t);
    hide PlanOk, Listed, Open;
    ArriveKeeps(ring.courses[c], rank);
    if !succeeded {
      LoseKeeps(ring.courses[c], rank, bytes);
    }
    var course := Settles(ring.courses[c], rank, succeeded, bytes);
    hide Received;
    TicketClosed(ring, c, course, rank, true, t);
    PlanKept(ring.courses[c].record, course.record);
    CourseMoves(ring, live, Closed(ring, c, course, true, t), live, c, course);
  }

  // Submission

  /** Every rank holds its own contribution to every shard. */
  ghost function FirstBoard(n: nat): Board {
    seq(n, s => seq(n, rank => multiset{rank}))
  }

  function FreshRecord(request: CollectiveRequest, id: nat, planned: nat, now: nat): Record {
    Record(request, CollectiveResult(id, ReduceScatter, now, now, planned, 0, 0, 0), ReduceScatter, 0, 0, false, false,
           false)
  }

  ghost function FreshCourse(request: CollectiveRequest, id: nat, planned: nat, now: nat): Course {
    Course(FreshRecord(request, id, planned, now), map[], FirstBoard(|request.participants|))
  }

  lemma FreshStarts(course: Course)
    requires course.record.Stage().n >= 2 && course.record.Stage().bytes > 0 && PlanOk(course.record)
    requires course == FreshCourse(course.record.request, course.record.result.id, course.record.result.planned,
                                   course.record.result.started)
    ensures RoundOk(course, 0)
  {
    var st := course.record.Stage();
    forall s | 0 <= s < st.n ensures course.board[s] == Column(st.n, s, 0) {
    }
    hide Column, ShardBytes;
    assert AtStart(course);
    StartKeeps(course);
  }

  lemma Submitted(ring: Ring, live: EventTable, course: Course)
    requires RingOk(ring, live) && PlanOk(course.record) && course.record.Stage().n >= 2
    requires course == FreshCourse(course.record.request, |ring.courses|, course.record.result.planned,
                                   course.record.result.started)
    ensures IssuingOk(ring.(courses := ring.courses + [course]), live, |ring.courses|, 0)
  {
    FreshStarts(course);
    hide RoundOk, TablesOk, LocalsOk, ResultsOk, PlanOk, CourseOk, FirstBoard;
    CourseAppended(ring, course);
    ResultsAppended(ring.courses, ring.results, course);
  }

  lemma SubmittedAlone(ring: Ring, live: EventTable, course: Course, now: nat)
    requires RingOk(ring, live) && PlanOk(course.record) && course.record.Stage().n == 1
    requires course == FreshCourse(course.record.request, |ring.courses|, course.record.result.planned,
                                   course.record.result.started)
    ensures RingOk(WithFinished(ring.(courses := ring.courses + [course]), |ring.courses|, now), live)
  {
    assert course.board[0] == [multiset{0}];
    assert course.board == [[multiset{0}]];
    AloneIsDone(course, now);
    hide RoundOk, TablesOk, LocalsOk, ResultsOk, PlanOk, CourseOk, FirstBoard, Outcome;
    var grown := ring.(courses := ring.courses + [course]);
    CourseAppended(ring, course);
    ResultsAppended(ring.courses, ring.results, course);
    var done := course.(record := Finished(course.record, now));
    SameTickets(grown, |ring.courses|, done);
    TablesIgnoreResults(WithCourse(grown, |ring.courses|, done), WithFinished(grown, |ring.courses|, now));
    ResultReported(grown.courses, ring.results, |ring.courses|, done);
  }

  // Every reachable state

  ghost function FabricOf(ring: Ring, c: nat): set<nat> {
    set t | t in ring.transfers && ring.transfers[t].collective == c
  }

  ghost function LocalOf(ring: Ring, c: nat): set<nat> {
    set e | e in ring.locals && ring.locals[e].transfer.collective == c
  }

  /** `pending` is the number of outstanding local and fabric transfers of a collective. */
  lemma PendingIsOutstanding(ring: Ring, live: EventTable, c: nat)
    requires RingOk(ring, live) && c < |ring.courses|
    ensures ring.courses[c].record.pending == |FabricOf(ring, c)| + |LocalOf(ring, c)|
  {
    var open := ring.courses[c].open;
    assert ring.courses[c].record.pending == |open| by {
      hide TablesOk, LocalsOk, ResultsOk, BytesOk, BoardOk, TicketsFit, Reduced;
      assert CourseOk(ring.courses[c]);
    }
    hide CoursesOk, TablesOk, ResultsOk, LocalsOk;
    assert open.Keys == RanksOf(open, true) + RanksOf(open, false);
    FabricCount(ring, c);
    LocalCount(ring, c);
  }

  ghost function RanksOf(open: map<nat, Ticket>, fabric: bool): set<nat> {
    set rank | rank in open && open[rank].fabric == fabric
  }

  lemma FabricCount(ring: Ring, c: nat)
    requires TablesOk(ring) && c < |ring.courses|
    ensures |RanksOf(ring.courses[c].open, true)| == |FabricOf(ring, c)|
  {
    hide TicketBytes, LocalsOpen;
    var open := ring.courses[c].open;
    var toId := map rank | rank in open :: open[rank].id;
    forall rank | rank in RanksOf(open, true)
      ensures toId[rank] in FabricOf(ring, c) && toId[rank] in ring.ranks && ring.ranks[toId[rank]] == rank
    {
      assert Listed(ring, c, rank);
    }
    forall t | t in FabricOf(ring, c)
      ensures t in ring.ranks && ring.ranks[t] in RanksOf(open, true) && ring.ranks[t] in open
              && toId[ring.ranks[t]] == t
    {
      assert Open(ring, c, ring.ranks[t], true, t);
    }
    SameSize(RanksOf(open, true), FabricOf(ring, c), toId, ring.ranks);
  }

  lemma LocalCount(ring: Ring, c: nat)
    requires TablesOk(ring) && c < |ring.courses|
    ensures |RanksOf(ring.courses[c].open, false)| == |LocalOf(ring, c)|
  {
    hide TicketBytes, TransfersOpen;
    var open := ring.courses[c].open;
    var toId := map rank | rank in open :: open[rank].id;
    var back := map e | e in ring.locals :: ring.locals[e].rank;
    forall rank | rank in RanksOf(open, false)
      ensures toId[rank] in LocalOf(ring, c) && toId[rank] in back && back[toId[rank]] == rank
    {
      assert Listed(ring, c, rank);
    }
    forall e | e in LocalOf(ring, c)
      ensures e in back && back[e] in RanksOf(open, false) && back[e] in open && toId[back[e]] == e
    {
      assert Open(ring, c, ring.locals[e].rank, false, e);
    }
    SameSize(RanksOf(open, false), LocalOf(ring, c), toId, back);
  }

  /** Two sets that a map and its inverse carry into one another have the same size. */
  lemma {:induction false} SameSize(a: set<nat>, b: set<nat>, there: map<nat, nat>, back: map<nat, nat>)
    requires forall x :: x in a ==> x in there && there[x] in b && there[x] in back && back[there[x]] == x
    requires forall y :: y in b ==> y in back && back[y] in a && back[y] in there && there[back[y]] == y
    ensures |a| == |b|
    decreases |a|
  {
    if a == {} {
      assert forall y :: y !in b;
    } else {
      var x :| x in a;
      SameSize(a - {x}, b - {there[x]}, there, back);
    }
  }

  /**
   When no transport event and no local completion is pending and every completion was consumed,
   every collective has finished and reported its result.
   */
  lemma QuietRing(ring: Ring, live: EventTable, transfers: TransferTable, submitted: set<nat>,
                  consumed: seq<Completion>)
    requires RingOk(ring, live) && Linked(ring.transfers, transfers, submitted, consumed)
    requires forall e :: e in live ==> !live[e].payload.LocalCompletion?
    requires forall t :: t in submitted ==> t in transfers && transfers[t].completion.Some?
    requires EmittedOk(transfers, consumed)
    ensures forall c :: 0 <= c < |ring.courses| ==> ring.courses[c].record.finished && WasReported(c, ring.results)
  {
    hide CourseOk, TransfersOpen, LocalsOpen;
    forall c | 0 <= c < |ring.courses| ensures ring.courses[c].record.finished {
      NothingOpen(ring, c);
      WaitsForSomething(ring.courses[c]);
    }
  }

  lemma NothingOpen(ring: Ring, c: nat)
    requires AllListed(ring) && c < |ring.courses| && ring.transfers == map[] && ring.locals == map[]
    ensures ring.courses[c].open == map[]
  {
    assert forall rank :: rank in ring.courses[c].open ==> Listed(ring, c, rank);
    assert ring.courses[c].open.Keys == {};
  }

  lemma WaitsForSomething(c: Course)
    requires CourseOk(c) && c.open == map[]
    ensures c.record.finished
  {
    hide BytesOk, BoardOk, TicketsFit, FinishedOk, PlanOk;
  }
}
