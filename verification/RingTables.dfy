/** The executor's tables of transfers under way, and how they match the collectives that wait for them. */
module RingTables {
  import opened Prelude
  import opened Events
  import opened Links
  import opened RingPlanner
  import opened RingState
  import opened RingSteps
  import opened TransportState
  import opened TransportModel
  import opened TransportLedger

  datatype Pending = Pending(collective: nat, bytes: nat)
  datatype LocalPending = LocalPending(transfer: Pending, round: nat, rank: nat, phase: Phase)

  /** `ranks` remembers which rank each fabric transfer was issued for. */
  datatype Ring = Ring(
    courses: seq<Course>, transfers: map<nat, Pending>, locals: map<nat, LocalPending>, ranks: map<nat, nat>,
    results: seq<CollectiveResult>)

  ghost function TicketBytes(c: Course, rank: nat): nat {
    if c.record.Stage().Running() && rank < c.record.Stage().n then c.record.Stage().Transfer(rank).bytes else 0
  }

  /** An open ticket is in the table of its kind, under its collective. */
  ghost predicate Listed(ring: Ring, c: nat, rank: nat)
    requires c < |ring.courses| && rank in ring.courses[c].open
  {
    var course := ring.courses[c];
    var ticket := course.open[rank];
    if ticket.fabric then
      ticket.id in ring.transfers && ticket.id in ring.ranks
      && ring.transfers[ticket.id] == Pending(c, TicketBytes(course, rank)) && ring.ranks[ticket.id] == rank
    else
      ticket.id in ring.locals && ring.locals[ticket.id]
        == LocalPending(Pending(c, TicketBytes(course, rank)), course.record.round, rank, course.record.phase)
  }

  /** A table entry is the open ticket of its collective. */
  ghost predicate Open(ring: Ring, c: nat, rank: nat, fabric: bool, id: nat) {
    && c < |ring.courses| && rank in ring.courses[c].open
    && ring.courses[c].open[rank].fabric == fabric && ring.courses[c].open[rank].id == id
  }

  ghost predicate AllListed(ring: Ring) {
    forall c, rank :: 0 <= c < |ring.courses| && rank in ring.courses[c].open ==> Listed(ring, c, rank)
  }

  ghost predicate TransfersOpen(ring: Ring) {
    forall t :: t in ring.transfers ==>
      t in ring.ranks && Open(ring, ring.transfers[t].collective, ring.ranks[t], true, t)
  }

  ghost predicate LocalsOpen(ring: Ring) {
    forall e :: e in ring.locals ==> Open(ring, ring.locals[e].transfer.collective, ring.locals[e].rank, false, e)
  }

  ghost predicate TablesOk(ring: Ring) {
    AllListed(ring) && TransfersOpen(ring) && LocalsOpen(ring)
  }

  /** Local transfers and their completion events match one to one. */
  ghost predicate LocalsOk(locals: map<nat, LocalPending>, live: EventTable) {
    && (forall e :: e in locals ==> e in live && live[e].payload == EventOf(locals[e]))
    && (forall e :: e in live && live[e].payload.LocalCompletion? ==> e in locals)
  }

  function EventOf(p: LocalPending): Payload {
    LocalCompletion(p.transfer.collective, p.round, p.rank, p.phase)
  }

  /** Every transfer the transport runtime has is either awaited by a collective or already consumed. */
  ghost predicate Linked(ring: map<nat, Pending>, transfers: TransferTable, submitted: set<nat>,
                         consumed: seq<Completion>) {
    && (forall t :: t in ring ==>
          t in transfers && transfers[t].total.bytes == ring[t].bytes && t in submitted && !WasEmitted(t, consumed))
    && (forall t :: t in transfers && t !in ring ==> WasEmitted(t, consumed))
  }

  ghost predicate CoursesOk(courses: seq<Course>) {
    forall c :: 0 <= c < |courses| ==> CourseOk(courses[c])
  }

  ghost predicate WasReported(c: nat, results: seq<CollectiveResult>) {
    exists i :: 0 <= i < |results| && results[i].id == c
  }

  /** Every finished collective has reported its result, exactly once. */
  ghost predicate ResultsOk(courses: seq<Course>, results: seq<CollectiveResult>) {
    && (forall i :: 0 <= i < |results| ==>
          results[i].id < |courses| && courses[results[i].id].record.finished
          && courses[results[i].id].record.result == results[i])
    && (forall i, j :: 0 <= i < j < |results| ==> results[i].id != results[j].id)
    && (forall c :: 0 <= c < |courses| && courses[c].record.finished ==> WasReported(c, results))
    && (forall c :: 0 <= c < |courses| ==> courses[c].record.result.id == c)
  }

  ghost predicate RingOk(ring: Ring, live: EventTable) {
    CoursesOk(ring.courses) && TablesOk(ring) && LocalsOk(ring.locals, live) && ResultsOk(ring.courses, ring.results)
  }

  /** The same, while collective `c` is in the middle of issuing its round. */
  ghost predicate IssuingOk(ring: Ring, live: EventTable, c: nat, k: nat) {
    && c < |ring.courses| && RoundOk(ring.courses[c], k) && PlanOk(ring.courses[c].record)
    && (forall other :: 0 <= other < |ring.courses| && other != c ==> CourseOk(ring.courses[other]))
    && TablesOk(ring) && LocalsOk(ring.locals, live) && ResultsOk(ring.courses, ring.results)
  }

  // Steps on the tables

  ghost function WithCourse(ring: Ring, c: nat, course: Course): Ring
    requires c < |ring.courses|
  {
    ring.(courses := ring.courses[c := course])
  }

  /** A ticket stays listed while its entry, its course's stage and the ticket itself stay. */
  lemma ListedKept(ring: Ring, ring': Ring, c: nat, rank: nat)
    requires c < |ring.courses| && rank in ring.courses[c].open && Listed(ring, c, rank)
    requires c < |ring'.courses| && rank in ring'.courses[c].open
    requires ring'.courses[c].open[rank] == ring.courses[c].open[rank]
    requires ring'.courses[c].record.Stage() == ring.courses[c].record.Stage()
    requires var ticket := ring.courses[c].open[rank];
             if ticket.fabric then
               ticket.id in ring'.transfers && ticket.id in ring'.ranks && ticket.id in ring.transfers
               && ticket.id in ring.ranks
               && ring'.transfers[ticket.id] == ring.transfers[ticket.id]
               && ring'.ranks[ticket.id] == ring.ranks[ticket.id]
             else
               ticket.id in ring'.locals && ticket.id in ring.locals
               && ring'.locals[ticket.id] == ring.locals[ticket.id]
    ensures Listed(ring', c, rank)
  {
    hide Stage.Transfer, Stage.Running;
  }

  /** A course changes without touching what is open, unless nothing is open. */
  lemma SameTickets(ring: Ring, c: nat, course: Course)
    requires TablesOk(ring) && c < |ring.courses| && course.open == ring.courses[c].open
    requires course.open == map[] || course.record.Stage() == ring.courses[c].record.Stage()
    ensures TablesOk(WithCourse(ring, c, course))
  {
    hide TicketBytes, Record.Stage;
    var ring' := WithCourse(ring, c, course);
    assert AllListed(ring') by {
      forall d, rank | 0 <= d < |ring'.courses| && rank in ring'.courses[d].open ensures Listed(ring', d, rank) {
        assert Listed(ring, d, rank);
        ListedKept(ring, ring', d, rank);
      }
    }
    hide AllListed, Listed;
  }

  /** Rank `rank` of collective `c` has opened a ticket; every other ticket and entry is as it was. */
  ghost predicate Grew(ring: Ring, ring': Ring, c: nat, rank: nat, ticket: Ticket) {
    && c < |ring.courses| && rank !in ring.courses[c].open
    && |ring'.courses| == |ring.courses| && ring'.courses == ring.courses[c := ring'.courses[c]]
    && ring'.courses[c].open == ring.courses[c].open[rank := ticket]
    && ring'.courses[c].record.Stage() == ring.courses[c].record.Stage()
    && (forall t :: t in ring.transfers ==> t in ring'.transfers && ring'.transfers[t] == ring.transfers[t])
    && (forall t :: t in ring.transfers && t in ring.ranks ==> t in ring'.ranks && ring'.ranks[t] == ring.ranks[t])
    && (forall e :: e in ring.locals ==> e in ring'.locals && ring'.locals[e] == ring.locals[e])
  }

  lemma GrewListed(ring: Ring, ring': Ring, c: nat, rank: nat, ticket: Ticket)
    requires AllListed(ring) && Grew(ring, ring', c, rank, ticket) && Listed(ring', c, rank)
    ensures AllListed(ring')
  {
    hide TicketBytes, Record.Stage;
    forall d, other | 0 <= d < |ring'.courses| && other in ring'.courses[d].open ensures Listed(ring', d, other) {
      if d != c || other != rank {
        assert Listed(ring, d, other);
        ListedKept(ring, ring', d, other);
      }
    }
  }

  lemma GrewOpen(ring: Ring, ring': Ring, c: nat, rank: nat, ticket: Ticket, d: nat, other: nat, fabric: bool, id: nat)
    requires Grew(ring, ring', c, rank, ticket) && Open(ring, d, other, fabric, id)
    ensures Open(ring', d, other, fabric, id)
  {
    hide Record.Stage;
  }

  lemma GrewOpens(ring: Ring, ring': Ring, c: nat, rank: nat, ticket: Ticket)
    requires TransfersOpen(ring) && LocalsOpen(ring) && Grew(ring, ring', c, rank, ticket)
    ensures forall t :: t in ring.transfers ==>
              t in ring'.transfers && t in ring'.ranks
              && Open(ring', ring'.transfers[t].collective, ring'.ranks[t], true, t)
    ensures forall e :: e in ring.locals ==>
              e in ring'.locals && Open(ring', ring'.locals[e].transfer.collective, ring'.locals[e].rank, false, e)
  {
    hide Open, Record.Stage;
    forall t | t in ring.transfers
      ensures t in ring'.transfers && t in ring'.ranks
              && Open(ring', ring'.transfers[t].collective, ring'.ranks[t], true, t)
    {
      GrewOpen(ring, ring', c, rank, ticket, ring.transfers[t].collective, ring.ranks[t], true, t);
    }
    forall e | e in ring.locals
      ensures e in ring'.locals && Open(ring', ring'.locals[e].transfer.collective, ring'.locals[e].rank, false, e)
    {
      GrewOpen(ring, ring', c, rank, ticket, ring.locals[e].transfer.collective, ring.locals[e].rank, false, e);
    }
  }

  ghost function AddFabric(ring: Ring, c: nat, course: Course, rank: nat, t: nat, bytes: nat): Ring
    requires c < |ring.courses|
  {
    ring.(courses := ring.courses[c := course], transfers := ring.transfers[t := Pending(c, bytes)],
          ranks := ring.ranks[t := rank])
  }

  lemma FabricAdded(ring: Ring, c: nat, course: Course, rank: nat, t: nat, payload: multiset<nat>)
    requires TablesOk(ring) && c < |ring.courses| && t !in ring.transfers && rank !in ring.courses[c].open
    requires course.open == ring.courses[c].open[rank := Ticket(true, t, payload)]
    requires course.record.Stage() == ring.courses[c].record.Stage()
    ensures TablesOk(AddFabric(ring, c, course, rank, t, TicketBytes(course, rank)))
  {
    hide TicketBytes, Record.Stage, AllListed;
    var ring' := AddFabric(ring, c, course, rank, t, TicketBytes(course, rank));
    GrewListed(ring, ring', c, rank, Ticket(true, t, payload));
    GrewOpens(ring, ring', c, rank, Ticket(true, t, payload));
  }

  ghost function AddLocal(ring: Ring, c: nat, course: Course, e: nat, p: LocalPending): Ring
    requires c < |ring.courses|
  {
    ring.(courses := ring.courses[c := course], locals := ring.locals[e := p])
  }

  lemma LocalAdded(ring: Ring, c: nat, course: Course, rank: nat, e: nat, payload: multiset<nat>)
    requires TablesOk(ring) && c < |ring.courses| && e !in ring.locals && rank !in ring.courses[c].open
    requires course.open == ring.courses[c].open[rank := Ticket(false, e, payload)]
    requires course.record.Stage() == ring.courses[c].record.Stage()
    ensures TablesOk(AddLocal(ring, c, course, e,
                              LocalPending(Pending(c, TicketBytes(course, rank)), course.record.round, rank,
                                           course.record.phase)))
  {
    hide TicketBytes, Record.Stage, AllListed;
    var ring' := AddLocal(ring, c, course, e,
                          LocalPending(Pending(c, TicketBytes(course, rank)), course.record.round, rank,
                                       course.record.phase));
    GrewListed(ring, ring', c, rank, Ticket(false, e, payload));
    GrewOpens(ring, ring', c, rank, Ticket(false, e, payload));
  }

  ghost function Closed(ring: Ring, c: nat, course: Course, fabric: bool, id: nat): Ring
    requires c < |ring.courses|
  {
    if fabric then ring.(courses := ring.courses[c := course], transfers := ring.transfers - {id})
    else ring.(courses := ring.courses[c := course], locals := ring.locals - {id})
  }

  /** Two open tickets of one kind never share an ID. */
  lemma TicketsDiffer(ring: Ring, c: nat, rank: nat, d: nat, other: nat)
    requires TablesOk(ring) && c < |ring.courses| && rank in ring.courses[c].open
    requires d < |ring.courses| && other in ring.courses[d].open && (c != d || rank != other)
    requires ring.courses[c].open[rank].fabric == ring.courses[d].open[other].fabric
    ensures ring.courses[c].open[rank].id != ring.courses[d].open[other].id
  {
    hide TicketBytes, Record.Stage, Open;
    assert Listed(ring, c, rank) && Listed(ring, d, other);
  }

  /** A ticket is closed and its table entry erased. */
  lemma TicketClosed(ring: Ring, c: nat, course: Course, rank: nat, fabric: bool, id: nat)
    requires TablesOk(ring) && Open(ring, c, rank, fabric, id)
    requires course.open == ring.courses[c].open - {rank} && course.record.Stage() == ring.courses[c].record.Stage()
    ensures TablesOk(Closed(ring, c, course, fabric, id))
  {
    hide TicketBytes, Record.Stage;
    var ring' := Closed(ring, c, course, fabric, id);
    OpenAfterClose(ring, c, course, rank, fabric, id);
    hide TransfersOpen, LocalsOpen;
    assert Listed(ring, c, rank);
    forall d, other | 0 <= d < |ring'.courses| && other in ring'.courses[d].open ensures Listed(ring', d, other) {
      assert Listed(ring, d, other);
      if ring.courses[d].open[other].fabric == fabric {
        TicketsDiffer(ring, c, rank, d, other);
      }
      ListedKept(ring, ring', d, other);
    }
  }

  lemma OpenAfterClose(ring: Ring, c: nat, course: Course, rank: nat, fabric: bool, id: nat)
    requires TablesOk(ring) && Open(ring, c, rank, fabric, id) && course.open == ring.courses[c].open - {rank}
    ensures TransfersOpen(Closed(ring, c, course, fabric, id)) && LocalsOpen(Closed(ring, c, course, fabric, id))
  {
    hide AllListed;
  }

  lemma CourseAppended(ring: Ring, course: Course)
    requires TablesOk(ring) && course.open == map[]
    ensures TablesOk(ring.(courses := ring.courses + [course]))
  {
    hide TicketBytes, Record.Stage;
    var ring' := ring.(courses := ring.courses + [course]);
    forall d, rank | 0 <= d < |ring'.courses| && rank in ring'.courses[d].open ensures Listed(ring', d, rank) {
      assert Listed(ring, d, rank);
      ListedKept(ring, ring', d, rank);
    }
    hide Listed;
  }

  // Events and completions

  lemma LocalScheduled(locals: map<nat, LocalPending>, live: EventTable, event: Event, p: LocalPending)
    requires LocalsOk(locals, live) && event.id !in live && event.payload == EventOf(p)
    ensures LocalsOk(locals[event.id := p], live[event.id := event]) && event.id !in locals
  {
  }

  lemma LocalConsumed(locals: map<nat, LocalPending>, live: EventTable, event: Event)
    requires LocalsOk(locals, live[event.id := event]) && event.id !in live
    ensures LocalsOk(locals - {event.id}, live)
  {
    assert forall e :: e in live ==> live[event.id := event][e] == live[e];
  }

  /** The local completions of two queues are the same. */
  ghost predicate SameLocals(live: EventTable, live': EventTable) {
    && (forall e :: e in live && live[e].payload.LocalCompletion? ==> e in live' && live'[e] == live[e])
    && (forall e :: e in live' && live'[e].payload.LocalCompletion? ==> e in live && live[e] == live'[e])
  }

  lemma LocalsFrame(locals: map<nat, LocalPending>, live: EventTable, live': EventTable)
    requires LocalsOk(locals, live) && SameLocals(live, live')
    ensures LocalsOk(locals, live')
  {
  }

  /** A fresh transfer becomes awaited. */
  lemma LinkedEnters(ring: map<nat, Pending>, before: TransferTable, after: TransferTable, submitted: set<nat>,
                     consumed: seq<Completion>, t: nat, p: Pending)
    requires Linked(ring, before, submitted, consumed) && t !in before && t in after && after == before[t := after[t]]
    requires after[t].total.bytes == p.bytes
    requires forall i :: 0 <= i < |consumed| ==> consumed[i].transfer in before
    ensures Linked(ring[t := p], after, submitted + {t}, consumed) && t !in ring
  {
    assert !WasEmitted(t, consumed);
  }

  lemma LinkedConsumes(ring: map<nat, Pending>, transfers: TransferTable, submitted: set<nat>,
                       consumed: seq<Completion>, completion: Completion)
    requires Linked(ring, transfers, submitted, consumed) && completion.transfer in transfers
    ensures Linked(ring - {completion.transfer}, transfers, submitted, consumed + [completion])
  {
    forall t | t in transfers && t !in ring - {completion.transfer} ensures WasEmitted(t, consumed + [completion]) {
      if t == completion.transfer {
        assert (consumed + [completion])[|consumed|].transfer == t;
      } else {
        var i :| 0 <= i < |consumed| && consumed[i].transfer == t;
        assert (consumed + [completion])[i].transfer == t;
      }
    }
    forall t | t in ring - {completion.transfer} ensures !WasEmitted(t, consumed + [completion]) {
      assert !WasEmitted(t, consumed);
    }
  }

  /** The k-th emitted completion is awaited once exactly those before it have been consumed. */
  lemma NextIsAwaited(ring: map<nat, Pending>, transfers: TransferTable, submitted: set<nat>,
                      emitted: seq<Completion>, k: nat)
    requires EmittedOk(transfers, emitted) && k < |emitted| && Linked(ring, transfers, submitted, emitted[..k])
    ensures emitted[k].transfer in ring && emitted[k].transfer in transfers
    ensures transfers[emitted[k].transfer].completion == Some(emitted[k])
  {
    assert !WasEmitted(emitted[k].transfer, emitted[..k]);
  }

  // What a completion says

  lemma {:induction false} NoneLost(list: seq<nat>, chunks: ChunkTable, state: Transit)
    requires forall i :: 0 <= i < |list| ==> list[i] in chunks
    ensures CountIn(list, chunks, state) == 0 ==> BytesIn(list, chunks, state) == 0
  {
    if |list| > 0 {
      NoneLost(list[..|list| - 1], chunks, state);
    }
  }

  /** A completion accounts for the whole transfer, and a successful one delivered all of it. */
  lemma CompletionAccounts(t: nat, r: TransferRecord, chunks: ChunkTable)
    requires AccountOk(t, r, chunks) && r.completion.Some?
    ensures var c := r.completion.value;
            && c.delivered.bytes + c.bufferFull.bytes + c.linkDown.bytes == r.total.bytes
            && (c.succeeded ==> c.delivered.bytes == r.total.bytes)
  {
    OutcomesCover(r.chunks, chunks);
    NoneLost(r.chunks, chunks, LostBufferFull);
    NoneLost(r.chunks, chunks, LostLinkDown);
    hide BytesIn, CountIn, TotalBytes, AllTerminal;
  }

  // Results

  /** An unfinished collective moves on. */
  lemma ResultsKept(courses: seq<Course>, results: seq<CollectiveResult>, c: nat, course: Course)
    requires ResultsOk(courses, results) && c < |courses| && !courses[c].record.finished
    requires !course.record.finished && course.record.result.id == c
    ensures ResultsOk(courses[c := course], results)
  {
  }

  lemma ResultReported(courses: seq<Course>, results: seq<CollectiveResult>, c: nat, course: Course)
    requires ResultsOk(courses, results) && c < |courses| && !courses[c].record.finished
    requires course.record.finished && course.record.result.id == c
    ensures ResultsOk(courses[c := course], results + [course.record.result])
  {
    var courses', results' := courses[c := course], results + [course.record.result];
    forall d | 0 <= d < |courses'| && courses'[d].record.finished ensures WasReported(d, results') {
      if d == c {
        assert results'[|results|].id == d;
      } else {
        assert WasReported(d, results);
        var i :| 0 <= i < |results| && results[i].id == d;
        assert results'[i].id == d;
      }
    }
  }

  lemma ResultsAppended(courses: seq<Course>, results: seq<CollectiveResult>, course: Course)
    requires ResultsOk(courses, results) && !course.record.finished && course.record.result.id == |courses|
    ensures ResultsOk(courses + [course], results)
  {
  }

  // Steps of the executor

  lemma IssuingCourse(ring: Ring, live: EventTable, c: nat, k: nat)
    requires IssuingOk(ring, live, c, k)
    ensures c < |ring.courses| && RoundOk(ring.courses[c], k) && PlanOk(ring.courses[c].record)
    ensures ring.courses[c].record.result.id == c && !ring.courses[c].record.finished
    ensures k !in ring.courses[c].open
  {
    hide TablesOk, LocalsOk, CourseOk, BytesOk, BoardOk;
  }

  lemma IssueFabric(ring: Ring, live: EventTable, c: nat, k: nat, t: nat)
    requires IssuingOk(ring, live, c, k) && t !in ring.transfers
    requires k < ring.courses[c].record.Stage().n && !ring.courses[c].record.failed
    requires ring.courses[c].record.Stage().Transfer(k).bytes > 0
    ensures var course := Issued(ring.courses[c], k, true, t);
            IssuingOk(AddFabric(ring, c, course, k, t, TicketBytes(course, k)), live, c, k + 1)
  {
    hide TablesOk, LocalsOk, CourseOk, RoundOk, ResultsOk, Stage.Transfer, Stage.Running, TicketBytes;
    IssuingCourse(ring, live, c, k);
    RoundRuns(ring.courses[c], k);
    IssueKeeps(ring.courses[c], k, true, t);
    var course := Issued(ring.courses[c], k, true, t);
    FabricAdded(ring, c, course, k, t, PayloadOf(ring.courses[c].record.Stage(), ring.courses[c].board, k));
    ResultsKept(ring.courses, ring.results, c, course);
  }

  lemma RoundRuns(c: Course, k: nat)
    requires RoundOk(c, k)
    ensures c.record.Stage().Running() && k <= c.record.Stage().n && !c.record.finished
  {
    hide BytesOk, BoardOk;
  }

  lemma IssueLocal(ring: Ring, live: EventTable, c: nat, k: nat, event: Event)
    requires IssuingOk(ring, live, c, k) && event.id !in live
    requires k < ring.courses[c].record.Stage().n && !ring.courses[c].record.failed
    requires ring.courses[c].record.Stage().Transfer(k).bytes > 0
    requires event.payload == LocalCompletion(c, ring.courses[c].record.round, k, ring.courses[c].record.phase)
    ensures var course := Issued(ring.courses[c], k, false, event.id);
            var p := LocalPending(Pending(c, TicketBytes(course, k)), course.record.round, k, course.record.phase);
            IssuingOk(AddLocal(ring, c, course, event.id, p), live[event.id := event], c, k + 1)
  {
    hide TablesOk, LocalsOk, CourseOk, RoundOk, ResultsOk, Stage.Transfer, Stage.Running, TicketBytes;
    IssuingCourse(ring, live, c, k);
    RoundRuns(ring.courses[c], k);
    IssueKeeps(ring.courses[c], k, false, event.id);
    var course := Issued(ring.courses[c], k, false, event.id);
    var p := LocalPending(Pending(c, TicketBytes(course, k)), course.record.round, k, course.record.phase);
    LocalScheduled(ring.locals, live, event, p);
    LocalAdded(ring, c, course, k, event.id, PayloadOf(ring.courses[c].record.Stage(), ring.courses[c].board, k));
    ResultsKept(ring.courses, ring.results, c, course);
  }

  lemma IssueNone(ring: Ring, live: EventTable, c: nat, k: nat)
    requires IssuingOk(ring, live, c, k) && k < ring.courses[c].record.Stage().n
    ensures IssuingOk(WithCourse(ring, c, NoRoute(ring.courses[c])), live, c, k + 1)
  {
    hide TablesOk, LocalsOk, CourseOk, RoundOk, ResultsOk;
    IssuingCourse(ring, live, c, k);
    NoRouteKeeps(ring.courses[c], k);
    SameTickets(ring, c, NoRoute(ring.courses[c]));
    ResultsKept(ring.courses, ring.results, c, NoRoute(ring.courses[c]));
  }

  lemma IssuePass(ring: Ring, live: EventTable, c: nat, k: nat)
    requires IssuingOk(ring, live, c, k) && k < ring.courses[c].record.Stage().n
    requires ring.courses[c].record.Stage().Running() && !ring.courses[c].record.failed ==>
               ring.courses[c].record.Stage().Transfer(k).bytes == 0
    ensures IssuingOk(ring, live, c, k + 1)
  {
    hide TablesOk, LocalsOk, CourseOk, RoundOk, ResultsOk, Stage.Transfer, Stage.Running;
    IssuingCourse(ring, live, c, k);
    RoundRuns(ring.courses[c], k);
    PassKeeps(ring.courses[c], k);
  }

  lemma IssuingDone(ring: Ring, live: EventTable, c: nat)
    requires c < |ring.courses| && IssuingOk(ring, live, c, ring.courses[c].record.Stage().n)
    requires ring.courses[c].record.pending > 0
    ensures RingOk(ring, live)
  {
    hide TablesOk, LocalsOk, RoundOk, ResultsOk, FinishedOk, PlanOk;
    RoundRuns(ring.courses[c], ring.courses[c].record.Stage().n);
  }

  /** `finish`: allowed once nothing is pending and the collective failed, was cancelled or ran its last round. */
  ghost function WithFinished(ring: Ring, c: nat, now: nat): Ring
    requires c < |ring.courses|
  {
    var course := ring.courses[c].(record := Finished(ring.courses[c].record, now));
    ring.(courses := ring.courses[c := course], results := ring.results + [course.record.result])
  }

  lemma CoursesWith(ring: Ring, live: EventTable, c: nat, k: nat, course: Course)
    requires IssuingOk(ring, live, c, k) && CourseOk(course)
    ensures CoursesOk(ring.courses[c := course])
  {
    hide TablesOk, LocalsOk, RoundOk, ResultsOk, CourseOk, PlanOk;
  }

  lemma FinishStep(ring: Ring, live: EventTable, c: nat, now: nat)
    requires c < |ring.courses| && IssuingOk(ring, live, c, ring.courses[c].record.Stage().n)
    requires ring.courses[c].record.pending == 0
    requires ring.courses[c].record.Stage().Running() ==>
               ring.courses[c].record.failed || ring.courses[c].record.cancelled || Next(ring.courses[c].record) == None
    ensures RingOk(WithFinished(ring, c, now), live)
    ensures Outcome(ring.courses[c].record) == Succeeded ==>
              ring.courses[c].record.result.delivered == ring.courses[c].record.result.planned
  {
    hide TablesOk, LocalsOk, CourseOk, CoursesOk, RoundOk, ResultsOk, Next, Outcome, PlanOk;
    var n := ring.courses[c].record.Stage().n;
    IssuingCourse(ring, live, c, n);
    RoundRuns(ring.courses[c], n);
    RoundEmpty(ring.courses[c], n);
    FinishKeeps(ring.courses[c], now);
    var course := ring.courses[c].(record := Finished(ring.courses[c].record, now));
    CoursesWith(ring, live, c, n, course);
    SameTickets(ring, c, course);
    ResultReported(ring.courses, ring.results, c, course);
    TablesIgnoreResults(WithCourse(ring, c, course), WithFinished(ring, c, now));
  }

  lemma RoundEmpty(c: Course, k: nat)
    requires RoundOk(c, k) && c.record.pending == 0
    ensures c.open == map[]
  {
    hide BytesOk, BoardOk;
    Sizes(c.open, 0, Ticket(false, 0, multiset{}));
  }

  lemma TablesIgnoreResults(ring: Ring, ring': Ring)
    requires TablesOk(ring) && ring' == ring.(results := ring'.results)
    ensures TablesOk(ring')
  {
    hide TicketBytes, Record.Stage;
    assert AllListed(ring') by {
      forall d, rank | 0 <= d < |ring'.courses| && rank in ring'.courses[d].open ensures Listed(ring', d, rank) {
        assert Listed(ring, d, rank);
        ListedKept(ring, ring', d, rank);
      }
    }
    hide AllListed, Listed;
  }

  lemma NextStep(ring: Ring, live: EventTable, c: nat)
    requires c < |ring.courses| && IssuingOk(ring, live, c, ring.courses[c].record.Stage().n)
    requires ring.courses[c].record.pending == 0 && !ring.courses[c].record.failed
    requires ring.courses[c].record.Stage().Running() && Next(ring.courses[c].record).Some?
    ensures IssuingOk(WithCourse(ring, c, ring.courses[c].(record := Next(ring.courses[c].record).value)), live, c, 0)
  {
    hide TablesOk, LocalsOk, CourseOk, RoundOk, ResultsOk, Outcome;
    var n := ring.courses[c].record.Stage().n;
    IssuingCourse(ring, live, c, n);
    RoundEmpty(ring.courses[c], n);
    NextStarts(ring.courses[c]);
    var course := ring.courses[c].(record := Next(ring.courses[c].record).value);
    StartKeeps(course);
    hide AtStart;
    SameTickets(ring, c, course);
    ResultsKept(ring.courses, ring.results, c, course);
  }
}
