/**
 The Ring AllReduce executor of `simulator/src/collective/runtime.cpp`, over the transport runtime and
 the event engine. Guards that throw `std::logic_error` are `assert` statements: they are proved
 never to fire. The router is any assignment of outcomes to flow keys, which are never reused.
 */
module RingExecutors {
  import opened Prelude
  import opened Events
  import opened Simulations
  import opened Links
  import opened Topology
  import opened RingPlanner
  import opened RingState
  import opened RingSteps
  import opened RingTables
  import opened RingModel
  import opened TransportState
  import opened TransportModel
  import opened Transport
  import Timing

  datatype CollectiveConfiguration = CollectiveConfiguration(
    localBandwidth: nat, localLatency: nat,
    maximumCollectives: nat, maximumParticipantEntries: nat, maximumTimelineEntries: nat)

  datatype TimelineEntry = TimelineEntry(id: nat, timestamp: nat, phase: Phase, round: nat)

  /** What `Router::submit` does with a request: a path, no path, or a limit reached. */
  datatype RoutingOutcome = Selected(path: seq<DirectedLinkId>) | NoPath | Overrun

  /** Everything but transport events and local completions is left alone. */
  ghost predicate SameOutside(live: EventTable, live': EventTable) {
    && (forall e :: e in live && IsOutside(live[e].payload) ==> e in live' && live'[e] == live[e])
    && (forall e :: e in live' && IsOutside(live'[e].payload) ==> e in live && live[e] == live'[e])
  }

  predicate IsOutside(p: Payload) {
    !IsTransport(p) && !p.LocalCompletion?
  }

  lemma OutsideSame(live: EventTable)
    ensures SameOutside(live, live)
  {
  }

  lemma OutsideTransitive(a: EventTable, b: EventTable, c: EventTable)
    requires SameOutside(a, b) && SameOutside(b, c)
    ensures SameOutside(a, c)
  {
  }

  lemma OutsideWith(live: EventTable, event: Event)
    requires event.id !in live && !IsOutside(event.payload)
    ensures SameOutside(live, live[event.id := event])
  {
  }

  /** The transport runtime leaves local completions and everything outside alone. */
  lemma ForeignIsOutside(live: EventTable, live': EventTable)
    requires SameForeign(live, live')
    ensures SameOutside(live, live') && SameLocals(live, live')
  {
  }

  lemma RingFrame(ring: Ring, live: EventTable, live': EventTable, c: nat, k: nat)
    requires SameLocals(live, live')
    ensures RingOk(ring, live) ==> RingOk(ring, live')
    ensures IssuingOk(ring, live, c, k) ==> IssuingOk(ring, live', c, k)
  {
    hide CoursesOk, TablesOk, ResultsOk, CourseOk, RoundOk, PlanOk;
    if LocalsOk(ring.locals, live) {
      LocalsFrame(ring.locals, live, live');
    }
    hide LocalsOk;
  }

  /** A scheduled local completion is not a transport event. */
  lemma LocalIsForeign(f: Fabric, live: EventTable, now: nat, event: Event)
    requires FabricOk(f, live, now) && event.id !in live && !IsTransport(event.payload)
    ensures FabricOk(f, live[event.id := event], now)
  {
    FabricFrame(f, live, now, live[event.id := event], now);
  }

  lemma EnteredLinks(ring: map<nat, Pending>, before: TransferTable, after: TransferTable, submitted: set<nat>,
                     consumed: seq<Completion>, t: nat, p: Pending)
    requires Linked(ring, before, submitted, consumed) && Entered(before, after, t, p.bytes)
    requires forall i :: 0 <= i < |consumed| ==> consumed[i].transfer in before
    ensures Linked(ring[t := p], after, submitted + {t}, consumed) && t !in ring
  {
    LinkedEnters(ring, before, after, submitted, consumed, t, p);
  }

  lemma ConsumedKnown(f: Fabric, live: EventTable, now: nat, consumed: seq<Completion>)
    requires FabricOk(f, live, now) && consumed <= f.emitted
    ensures forall i :: 0 <= i < |consumed| ==> consumed[i].transfer in f.transfers
  {
    hide MotionOk, IdsOk, ArcsOk, SubmittedOk, AccountsOk, OwnersOk;
    assert forall i :: 0 <= i < |consumed| ==> consumed[i] == f.emitted[i];
  }

  /** Every rank below k with something to send has sent it, unless the collective failed. */
  ghost predicate AllIssued(c: Course, k: nat) {
    c.record.failed || (c.record.Stage().Running() && k <= c.record.Stage().n
                        && forall rank :: 0 <= rank < k && c.record.Stage().Transfer(rank).bytes > 0 ==> rank in c.open)
  }

  lemma AllIssuedNext(before: Course, after: Course, k: nat)
    requires AllIssued(before, k) && before.record.Stage().Running() && k < before.record.Stage().n
    requires after.record.Stage() == before.record.Stage()
    requires !after.record.failed ==>
               !before.record.failed && (forall rank :: rank in before.open ==> rank in after.open)
                                      && (k in after.open || before.record.Stage().Transfer(k).bytes == 0)
    ensures AllIssued(after, k + 1)
  {
    hide Stage.Transfer, Stage.Running;
  }

  /** A started round that did not fail waits for something. */
  lemma RoundWaits(c: Course)
    requires c.record.Stage().Running() && AllIssued(c, c.record.Stage().n)
    requires c.record.pending == |c.open|
    ensures c.record.failed || c.record.pending > 0
  {
    if !c.record.failed {
      var rank := SomethingToSend(c.record.Stage());
      assert rank in c.open;
    }
  }

  class RingExecutor {
    const gpus: seq<GpuWorker>
    const configuration: CollectiveConfiguration
    const routes: nat -> RoutingOutcome
    var participantEntries: nat
    var nextFlow: nat
    var records: seq<Record>
    var transfers: map<nat, Pending>
    var locals: map<nat, LocalPending>
    var completed: seq<CollectiveResult>
    var timeline: seq<TimelineEntry>
    ghost var courses: seq<Course>
    ghost var ranks: map<nat, nat>
    ghost var taken: seq<CollectiveResult>

    ghost function View(): Ring
      reads this
    {
      Ring(courses, transfers, locals, ranks, taken + completed)
    }

    /** The ghost courses carry the records, and every participant is a GPU of the graph. */
    ghost predicate Mirrors()
      reads this
    {
      && |records| == |courses|
      && (forall c :: 0 <= c < |records| ==> records[c] == courses[c].record && Known(records[c]))
      && participantEntries <= configuration.maximumParticipantEntries && nextFlow <= U64_MAX
    }

    ghost predicate Known(r: Record) {
      forall rank :: 0 <= rank < |r.request.participants| ==> r.request.participants[rank] < |gpus|
    }

    ghost predicate Valid(live: EventTable)
      reads this
    {
      RingOk(View(), live) && Mirrors()
    }

    ghost predicate Issuing(live: EventTable, c: nat, k: nat)
      reads this
    {
      IssuingOk(View(), live, c, k) && Mirrors()
    }

    /** The transfers awaited here and the completions consumed so far cover the transport's transfers. */
    ghost predicate Joined(transport: TransportRuntime, consumed: seq<Completion>)
      reads this, transport
    {
      && Linked(transfers, transport.transfers, transport.submitted, consumed)
      && consumed <= transport.taken + transport.completions
    }

    constructor (gpus: seq<GpuWorker>, configuration: CollectiveConfiguration, routes: nat -> RoutingOutcome)
      ensures Valid(map[]) && records == [] && transfers == map[] && completed == [] && taken == []
    {
      this.gpus, this.configuration, this.routes := gpus, configuration, routes;
      participantEntries, nextFlow, records, transfers, locals := 0, 0, [], map[], map[];
      completed, timeline := [], [];
      courses, ranks, taken := [], map[], [];
    }

    /** `trace`: false when the timeline is full, which throws. */
    method Trace(record: Record, now: nat) returns (ok: bool)
      modifies this`timeline
      ensures ok <==> |old(timeline)| != configuration.maximumTimelineEntries
      ensures timeline == if ok then old(timeline) + [TimelineEntry(record.result.id, now, record.phase, record.round)]
              else old(timeline)
    {
      if |timeline| == configuration.maximumTimelineEntries {
        return false;
      }
      timeline := timeline + [TimelineEntry(record.result.id, now, record.phase, record.round)];
      return true;
    }

    method Update(c: nat, record: Record, ghost course: Course)
      requires Mirrors() && c < |records| && record == course.record && Known(record)
      modifies this`records, this`courses
      ensures Mirrors() && records == old(records)[c := record] && courses == old(courses)[c := course]
    {
      records := records[c := record];
      courses := courses[c := course];
    }

    /** `issue` within one NIC: a local completion event stands for the transfer. */
    method IssueLocally(ctx: Simulation, transport: TransportRuntime, c: nat, transfer: RingTransfer)
      returns (r: Result<()>)
      requires ctx.Valid() && ctx.lifecycle == Running && transport.Valid(ctx.Live(), ctx.now)
      requires Issuing(ctx.Live(), c, transfer.source) && Sends(records, c, transfer)
      modifies this`records, this`courses, this`locals
      modifies ctx`nextEventId, ctx`idsExhausted, ctx`queue
      ensures ctx.Valid()
      ensures r.Throw? ==> r.error == OverflowError
      ensures r.Ok? ==> ctx.Valid() && transport.Valid(ctx.Live(), ctx.now)
                        && Issuing(ctx.Live(), c, transfer.source + 1)
      ensures r.Ok? ==> SameOutside(old(ctx.Live()), ctx.Live())
      ensures r.Ok? ==> DealtWith(old(courses), courses, c, transfer.source)
    {
      hide FabricOk, EngineOk, IssuingOk, SameOutside, Engine.Live, Stage.Transfer, Stage.Running, PayloadOf, DealtWith;
      var duration := Timing.Delay(transfer.bytes, configuration.localBandwidth);
      if duration == None || ctx.now + duration.value + configuration.localLatency > U64_MAX {
        return Throw(OverflowError);
      }
      ghost var live, ring := ctx.Live(), View();
      var record := records[c];
      var scheduled := ctx.ContextSchedule(ctx.now + duration.value + configuration.localLatency, Control,
                                           LocalCompletion(c, record.round, transfer.source, record.phase));
      if scheduled.Throw? {
        return Throw(OverflowError);
      }
      var event := scheduled.value;
      IssueLocal(ring, live, c, transfer.source, event);
      LocalIsForeign(transport.View(), live, ctx.now, event);
      OutsideWith(live, event);
      locals := locals[event.id := LocalPending(Pending(c, transfer.bytes), record.round, transfer.source,
                                                record.phase)];
      DealtByIssuing(courses, c, transfer.source, false, event.id);
      Update(c, WithIssued(record, transfer.bytes, false), Issued(courses[c], transfer.source, false, event.id));
      return Ok(());
    }

    /** `issue` between NICs: the router submits a transfer, or finds no path and fails the collective. */
    method IssueOverFabric(ctx: Simulation, transport: TransportRuntime, c: nat, transfer: RingTransfer,
                           source: nat, destination: nat, ghost consumed: seq<Completion>)
      returns (r: Result<()>)
      requires ctx.Valid() && ctx.lifecycle == Running && transport.Valid(ctx.Live(), ctx.now)
               && Joined(transport, consumed)
      requires Issuing(ctx.Live(), c, transfer.source) && Sends(records, c, transfer)
      modifies this`records, this`courses, this`transfers, this`ranks, this`nextFlow
      modifies transport`chunks, transport`transfers, transport`routeEntries, transport`chunkIds,
               transport`transferIds, transport`submitted
      modifies ctx`nextEventId, ctx`idsExhausted, ctx`queue
      ensures ctx.Valid()
      ensures r.Throw? ==> r.error != LogicError
      ensures r.Ok? ==> ctx.Valid() && transport.Valid(ctx.Live(), ctx.now) && Joined(transport, consumed)
      ensures r.Ok? ==> Issuing(ctx.Live(), c, transfer.source + 1) && SameOutside(old(ctx.Live()), ctx.Live())
      ensures r.Ok? ==> DealtWith(old(courses), courses, c, transfer.source)
    {
      hide FabricOk, EngineOk, IssuingOk, SameOutside, Engine.Live, Stage.Transfer, Stage.Running, PayloadOf, Linked,
           Entered, SameForeign;
      OutsideSame(ctx.Live());
      if nextFlow == U64_MAX {
        return Throw(OverflowError);
      }
      var outcome := routes(nextFlow);
      nextFlow := nextFlow + 1;
      if outcome == Overrun {
        return Throw(LengthError);
      }
      if outcome == NoPath {
        IssueNone(View(), ctx.Live(), c, transfer.source);
        Update(c, records[c].(failed := true), NoRoute(courses[c]));
        return Ok(());
      }
      r := SubmitOn(ctx, transport, c, transfer, source, destination, outcome.path, consumed);
    }

    /** The transfer of one ring step is submitted to the transport runtime on a given path. */
    method SubmitOn(ctx: Simulation, transport: TransportRuntime, c: nat, transfer: RingTransfer, source: nat,
                    destination: nat, path: seq<DirectedLinkId>, ghost consumed: seq<Completion>)
      returns (r: Result<()>)
      requires ctx.Valid() && ctx.lifecycle == Running && transport.Valid(ctx.Live(), ctx.now)
               && Joined(transport, consumed)
      requires Issuing(ctx.Live(), c, transfer.source) && Sends(records, c, transfer)
      modifies this`records, this`courses, this`transfers, this`ranks
      modifies transport`chunks, transport`transfers, transport`routeEntries, transport`chunkIds,
               transport`transferIds, transport`submitted
      modifies ctx`nextEventId, ctx`idsExhausted, ctx`queue
      ensures ctx.Valid()
      ensures r.Throw? ==> r.error != LogicError
      ensures r.Ok? ==> ctx.Valid() && transport.Valid(ctx.Live(), ctx.now) && Joined(transport, consumed)
      ensures r.Ok? ==> Issuing(ctx.Live(), c, transfer.source + 1) && SameOutside(old(ctx.Live()), ctx.Live())
      ensures r.Ok? ==> DealtWith(old(courses), courses, c, transfer.source)
    {
      hide FabricOk, EngineOk, IssuingOk, SameOutside, Engine.Live, Stage.Transfer, Stage.Running, PayloadOf, Linked,
           Entered, SameForeign, DealtWith, Simulation.Valid, Simulation.Live, Simulation.View,
           TransportRuntime.Retained;
      var record := records[c];
      ghost var live, ring := ctx.Live(), View();
      ghost var before, waiting := transport.transfers, transport.submitted;
      ConsumedKnown(transport.View(), live, ctx.now, consumed);
      var submitted := transport.SubmitTransfer(
        ctx, TransferRequest(Nic(source), Nic(destination), transfer.bytes, record.request.chunkBytes, path));
      if submitted.Throw? {
        return Throw(submitted.error);
      }
      var t := submitted.value;
      ForeignIsOutside(live, ctx.Live());
      RingFrame(ring, live, ctx.Live(), c, transfer.source);
      EnteredLinks(transfers, before, transport.transfers, waiting, consumed, t, Pending(c, transfer.bytes));
      IssueFabric(ring, ctx.Live(), c, transfer.source, t);
      transfers := transfers[t := Pending(c, transfer.bytes)];
      ranks := ranks[t := transfer.source];
      DealtByIssuing(courses, c, transfer.source, true, t);
      Update(c, WithIssued(record, transfer.bytes, true), Issued(courses[c], transfer.source, true, t));
      assert View() == AddFabric(ring, c, Issued(ring.courses[c], transfer.source, true, t), transfer.source, t,
                                 transfer.bytes);
      return Ok(());
    }

    /** `issue`. */
    method Issue(ctx: Simulation, transport: TransportRuntime, c: nat, transfer: RingTransfer,
                 ghost consumed: seq<Completion>)
      returns (r: Result<()>)
      requires ctx.Valid() && ctx.lifecycle == Running && transport.Valid(ctx.Live(), ctx.now)
               && Joined(transport, consumed)
      requires Issuing(ctx.Live(), c, transfer.source) && Sends(records, c, transfer)
      modifies this`records, this`courses, this`transfers, this`locals, this`ranks, this`nextFlow
      modifies transport`chunks, transport`transfers, transport`routeEntries, transport`chunkIds,
               transport`transferIds, transport`submitted
      modifies ctx`nextEventId, ctx`idsExhausted, ctx`queue
      ensures ctx.Valid()
      ensures r.Throw? ==> r.error != LogicError
      ensures r.Ok? ==> ctx.Valid() && transport.Valid(ctx.Live(), ctx.now) && Joined(transport, consumed)
      ensures r.Ok? ==> Issuing(ctx.Live(), c, transfer.source + 1) && SameOutside(old(ctx.Live()), ctx.Live())
      ensures r.Ok? ==> DealtWith(old(courses), courses, c, transfer.source)
    {
      hide FabricOk, EngineOk, IssuingOk, SameOutside, Engine.Live, Linked, DealtWith;
      assert transfer.destination < records[c].Stage().n;
      hide Stage.Transfer;
      var source := gpus[records[c].request.participants[transfer.source]].attachedNic;
      var destination := gpus[records[c].request.participants[transfer.destination]].attachedNic;
      if source == destination {
        r := IssueLocally(ctx, transport, c, transfer);
      } else {
        r := IssueOverFabric(ctx, transport, c, transfer, source, destination, consumed);
      }
    }

    /** `finish`; the collective has not finished before, and success has delivered what was planned. */
    method Finish(c: nat, now: nat, ghost live: EventTable) returns (r: Result<()>)
      requires Mirrors() && c < |records| && !records[c].finished
      requires Outcome(records[c]) == Succeeded ==> records[c].result.delivered == records[c].result.planned
      requires RingOk(WithFinished(View(), c, now), live)
      modifies this`records, this`courses, this`completed, this`timeline
      ensures r.Throw? ==> r.error == LengthError
      ensures r.Ok? ==> Valid(live) && |records| == |old(records)| && FinishedOnly(old(records), records, c, now)
      ensures r.Ok? ==> completed == old(completed) + [records[c].result]
    {
      hide RingOk;
      var record := records[c];
      assert !record.finished;
      var phase := Succeeded;
      if record.failed {
        phase := Phase.Failed;
      }
      if record.cancelled {
        phase := Cancelled;
      }
      assert phase == Succeeded ==> record.result.delivered == record.result.planned;
      record := record.(finished := true, phase := phase, result := record.result.(outcome := phase, finished := now));
      var traced := Trace(record, now);
      if !traced {
        return Throw(LengthError);
      }
      assert taken + (completed + [record.result]) == (taken + completed) + [record.result];
      completed := completed + [record.result];
      Update(c, record, courses[c].(record := record));
      return Ok(());
    }

    /** The loop of `start_round`: every nonempty shard is sent, until a transfer finds no route. */
    method IssueAll(ctx: Simulation, transport: TransportRuntime, c: nat, plan: seq<RingTransfer>,
                    ghost consumed: seq<Completion>)
      returns (r: Result<()>)
      requires ctx.Valid() && ctx.lifecycle == Running && transport.Valid(ctx.Live(), ctx.now)
               && Joined(transport, consumed)
      requires Issuing(ctx.Live(), c, 0) && Plans(records, c, plan) && !records[c].failed
      modifies this`records, this`courses, this`transfers, this`locals, this`ranks, this`nextFlow
      modifies transport`chunks, transport`transfers, transport`routeEntries, transport`chunkIds,
               transport`transferIds, transport`submitted
      modifies ctx`nextEventId, ctx`idsExhausted, ctx`queue
      ensures ctx.Valid()
      ensures r.Throw? ==> r.error != LogicError
      ensures r.Ok? ==> ctx.Valid() && transport.Valid(ctx.Live(), ctx.now) && Joined(transport, consumed)
      ensures r.Ok? ==> Issuing(ctx.Live(), c, |plan|) && SameOutside(old(ctx.Live()), ctx.Live())
      ensures r.Ok? ==> OnlyChanges(old(records), records, c) && Plans(records, c, plan)
                        && IssuedUpTo(courses, c, |plan|)
      ensures r.Ok? ==> records[c].Stage() == old(records)[c].Stage()
    {
      hide FabricOk, EngineOk, IssuingOk, SameOutside, Engine.Live, Linked, DealtWith, AllIssued, IssuedUpTo, Plans,
           Simulation.Valid, Simulation.Live, Simulation.View, TransportRuntime.Retained, TransportRuntime.Valid,
           RingExecutor.Joined;
      OutsideSame(ctx.Live());
      PlansLength(records, c, plan);
      NoneIssued(courses, c, records, plan);
      for k := 0 to |plan|
        invariant ctx.Valid() && transport.Valid(ctx.Live(), ctx.now) && Joined(transport, consumed)
        invariant Issuing(ctx.Live(), c, k) && SameOutside(old(ctx.Live()), ctx.Live())
        invariant OnlyChanges(old(records), records, c) && Plans(records, c, plan) && IssuedUpTo(courses, c, k)
        invariant records[c].Stage() == old(records)[c].Stage()
      {
        ghost var live, kept := ctx.Live(), records;
        r := IssueNext(ctx, transport, c, plan, k, consumed);
        if r.Throw? {
          return;
        }
        OutsideTransitive(old(ctx.Live()), live, ctx.Live());
        OnlyTransitive(old(records), kept, records, c);
      }
      return Ok(());
    }

    method IssueNext(ctx: Simulation, transport: TransportRuntime, c: nat, plan: seq<RingTransfer>, k: nat,
                     ghost consumed: seq<Completion>)
      returns (r: Result<()>)
      requires ctx.Valid() && ctx.lifecycle == Running && transport.Valid(ctx.Live(), ctx.now)
               && Joined(transport, consumed)
      requires Issuing(ctx.Live(), c, k) && Plans(records, c, plan) && k < |plan| && IssuedUpTo(courses, c, k)
      modifies this`records, this`courses, this`transfers, this`locals, this`ranks, this`nextFlow
      modifies transport`chunks, transport`transfers, transport`routeEntries, transport`chunkIds,
               transport`transferIds, transport`submitted
      modifies ctx`nextEventId, ctx`idsExhausted, ctx`queue
      ensures ctx.Valid()
      ensures r.Throw? ==> r.error != LogicError
      ensures r.Ok? ==> ctx.Valid() && transport.Valid(ctx.Live(), ctx.now) && Joined(transport, consumed)
      ensures r.Ok? ==> Issuing(ctx.Live(), c, k + 1) && SameOutside(old(ctx.Live()), ctx.Live())
      ensures r.Ok? ==> OnlyChanges(old(records), records, c) && Plans(records, c, plan)
                        && IssuedUpTo(courses, c, k + 1)
      ensures r.Ok? ==> records[c].Stage() == old(records)[c].Stage()
    {
      hide FabricOk, EngineOk, IssuingOk, SameOutside, Engine.Live, Linked, DealtWith, AllIssued, IssuedUpTo, Plans,
           Simulation.Valid, Simulation.Live, Simulation.View, TransportRuntime.Retained, TransportRuntime.Valid,
           Stage.Transfer, Stage.Running;
      PlansAt(records, c, plan, k);
      if plan[k].bytes != 0 && !records[c].failed {
        ghost var earlier, kept := courses, records;
        r := Issue(ctx, transport, c, plan[k], consumed);
        if r.Ok? {
          MirrorsChange(earlier, courses, kept, records, c, k, plan);
        }
        return;
      }
      OutsideSame(ctx.Live());
      IssuePass(View(), ctx.Live(), c, k);
      PassedUpTo(courses, c, records, plan, k);
      return Ok(());
    }

    /**
     `start_round`: every nonempty shard of the round is sent, until a transfer finds no route. The
     collective can only finish here because it failed.
     */
    method StartRound(ctx: Simulation, transport: TransportRuntime, c: nat, ghost consumed: seq<Completion>)
      returns (r: Result<()>)
      requires ctx.Valid() && ctx.lifecycle == Running && transport.Valid(ctx.Live(), ctx.now)
               && Joined(transport, consumed)
      requires Issuing(ctx.Live(), c, 0) && c < |records| && !records[c].failed
      modifies this`records, this`courses, this`transfers, this`locals, this`ranks, this`nextFlow, this`completed,
               this`timeline
      modifies transport`chunks, transport`transfers, transport`routeEntries, transport`chunkIds,
               transport`transferIds, transport`submitted
      modifies ctx`nextEventId, ctx`idsExhausted, ctx`queue
      ensures ctx.Valid()
      ensures r.Throw? ==> r.error != LogicError
      ensures r.Ok? ==> ctx.Valid() && transport.Valid(ctx.Live(), ctx.now) && Joined(transport, consumed)
      ensures r.Ok? ==> Valid(ctx.Live()) && SameOutside(old(ctx.Live()), ctx.Live())
      ensures r.Ok? ==> OnlyChanges(old(records), records, c) && ReportsOf(old(completed), completed, records, c)
      ensures r.Ok? && records[c].finished ==> records[c].failed
      ensures r.Ok? && !records[c].finished ==> records[c].Stage() == old(records)[c].Stage()
    {
      hide FabricOk, EngineOk, IssuingOk, RingOk, SameOutside, Engine.Live, Linked, Plans, IssuedUpTo, Stage.Transfer,
           Simulation.Valid, Simulation.Live, Simulation.View, TransportRuntime.Retained, TransportRuntime.Valid,
           Outcome;
      var traced := Trace(records[c], ctx.now);
      if !traced {
        return Throw(LengthError);
      }
      var record := records[c];
      StageRuns(View(), ctx.Live(), c, 0);
      var planned := PlanRound(|record.request.participants|, record.request.bytes, record.phase, record.round);
      assert planned.Ok?;
      PlansRound(records, c, planned.value);
      ghost var before := records;
      r := IssueAll(ctx, transport, c, planned.value, consumed);
      if r.Throw? {
        return;
      }
      PlansLength(records, c, planned.value);
      StageRuns(View(), ctx.Live(), c, |planned.value|);
      RoundStarted(View(), ctx.Live(), c);
      if records[c].pending == 0 {
        FinishStep(View(), ctx.Live(), c, ctx.now);
        r := Finish(c, ctx.now, ctx.Live());
      } else {
        IssuingDone(View(), ctx.Live(), c);
      }
    }

    /** `advance`: once nothing is pending the next round starts, or the collective finishes. */
    method Advance(ctx: Simulation, transport: TransportRuntime, c: nat, ghost n: nat, ghost consumed: seq<Completion>)
      returns (r: Result<()>)
      requires ctx.Valid() && ctx.lifecycle == Running && transport.Valid(ctx.Live(), ctx.now)
               && Joined(transport, consumed)
      requires Issuing(ctx.Live(), c, n) && c < |records| && n == records[c].Stage().n
      modifies this`records, this`courses, this`transfers, this`locals, this`ranks, this`nextFlow, this`completed,
               this`timeline
      modifies transport`chunks, transport`transfers, transport`routeEntries, transport`chunkIds,
               transport`transferIds, transport`submitted
      modifies ctx`nextEventId, ctx`idsExhausted, ctx`queue
      ensures ctx.Valid()
      ensures r.Throw? ==> r.error != LogicError
      ensures r.Ok? ==> ctx.Valid() && transport.Valid(ctx.Live(), ctx.now) && Joined(transport, consumed)
      ensures r.Ok? ==> Valid(ctx.Live()) && SameOutside(old(ctx.Live()), ctx.Live())
      ensures r.Ok? ==> OnlyChanges(old(records), records, c) && ReportsOf(old(completed), completed, records, c)
      ensures r.Ok? ==> Proceeds(old(records)[c], records[c], ctx.now)
    {
      hide FabricOk, EngineOk, IssuingOk, RingOk, SameOutside, Engine.Live, Linked, Stage.Transfer, Simulation.Valid,
           Simulation.Live, Simulation.View, TransportRuntime.Retained, TransportRuntime.Valid, Outcome;
      OutsideSame(ctx.Live());
      StageRuns(View(), ctx.Live(), c, n);
      var record := records[c];
      if record.pending != 0 {
        IssuingDone(View(), ctx.Live(), c);
        return Ok(());
      }
      if record.failed || record.cancelled {
        FinishStep(View(), ctx.Live(), c, ctx.now);
        r := Finish(c, ctx.now, ctx.Live());
        return;
      }
      var round := record.round + 1;
      if round == |record.request.participants| - 1 && record.phase == AllGather {
        FinishStep(View(), ctx.Live(), c, ctx.now);
        r := Finish(c, ctx.now, ctx.Live());
        return;
      }
      NextStep(View(), ctx.Live(), c);
      if round == |record.request.participants| - 1 {
        record := record.(phase := AllGather, round := 0);
      } else {
        record := record.(round := round);
      }
      ghost var before := records;
      Update(c, record, courses[c].(record := record));
      r := StartRound(ctx, transport, c, consumed);
    }

    /** `handle` of a local completion; `event` has just been taken off the queue. */
    method HandleLocal(ctx: Simulation, transport: TransportRuntime, event: Event, ghost consumed: seq<Completion>)
      returns (r: Result<()>)
      requires ctx.Valid() && ctx.lifecycle == Running && transport.Valid(ctx.Live(), ctx.now)
               && Joined(transport, consumed)
      requires event.payload.LocalCompletion? && event.id !in ctx.Live() && Valid(ctx.Live()[event.id := event])
      modifies this`records, this`courses, this`transfers, this`locals, this`ranks, this`nextFlow, this`completed,
               this`timeline
      modifies transport`chunks, transport`transfers, transport`routeEntries, transport`chunkIds,
               transport`transferIds, transport`submitted
      modifies ctx`nextEventId, ctx`idsExhausted, ctx`queue
      ensures ctx.Valid()
      ensures r.Throw? ==> r.error != LogicError
      ensures r.Ok? ==> ctx.Valid() && transport.Valid(ctx.Live(), ctx.now) && Joined(transport, consumed)
      ensures r.Ok? ==> Valid(ctx.Live()) && SameOutside(old(ctx.Live()), ctx.Live())
      ensures r.Ok? ==> |records| == |old(records)|
      ensures r.Ok? ==> ReportsOf(old(completed), completed, records, event.payload.collective)
      ensures r.Ok? ==> event.id in old(locals)
                        && Accrued(old(records), records, old(locals)[event.id].transfer,
                                   old(locals)[event.id].transfer.bytes, true, ctx.now)
    {
      hide FabricOk, EngineOk, IssuingOk, RingOk, SameOutside, Engine.Live, Linked, Stage.Transfer, Stage.Running,
           Simulation.Valid, Simulation.Live, Simulation.View, TransportRuntime.Retained, TransportRuntime.Valid,
           Received;
      ghost var ring := View();
      LocalFinds(ring, ctx.Live()[event.id := event], event);
      LocalArrives(ring, ctx.Live(), event);
      var p := event.payload;
      assert event.id in locals;
      var found := locals[event.id];
      assert LocalCompletion(found.transfer.collective, found.round, found.rank, found.phase) == p;
      assert p.collective < |records|;
      var record := records[p.collective];
      assert record.round == p.round && record.phase == p.phase && p.rank < |record.request.participants|;
      record := record.(result := record.result.(delivered := record.result.delivered + found.transfer.bytes));
      locals := locals - {event.id};
      record := record.(pending := record.pending - 1);
      Update(p.collective, record, Arrived(courses[p.collective], p.rank));
      assert View() == Closed(ring, p.collective, Arrived(ring.courses[p.collective], p.rank), false, event.id);
      r := Advance(ctx, transport, p.collective, record.Stage().n, consumed);
    }

    /** `handle` of a transfer outcome: the next one the transport runtime emitted. */
    method HandleTransfer(ctx: Simulation, transport: TransportRuntime, completion: Completion,
                          ghost consumed: seq<Completion>)
      returns (r: Result<()>)
      requires ctx.Valid() && ctx.lifecycle == Running && transport.Valid(ctx.Live(), ctx.now)
               && Joined(transport, consumed)
      requires Valid(ctx.Live()) && consumed + [completion] <= transport.taken + transport.completions
      modifies this`records, this`courses, this`transfers, this`locals, this`ranks, this`nextFlow, this`completed,
               this`timeline
      modifies transport`chunks, transport`transfers, transport`routeEntries, transport`chunkIds,
               transport`transferIds, transport`submitted
      modifies ctx`nextEventId, ctx`idsExhausted, ctx`queue
      ensures ctx.Valid()
      ensures r.Throw? ==> r.error != LogicError
      ensures r.Ok? ==> ctx.Valid() && transport.Valid(ctx.Live(), ctx.now)
                        && Joined(transport, consumed + [completion])
      ensures r.Ok? ==> Valid(ctx.Live()) && SameOutside(old(ctx.Live()), ctx.Live()) && |records| == |old(records)|
      ensures r.Ok? ==> old(completed) <= completed
      ensures r.Ok? ==> completion.transfer in old(transfers)
                        && Accrued(old(records), records, old(transfers)[completion.transfer],
                                   completion.delivered.bytes, completion.succeeded, ctx.now)
    {
      hide FabricOk, EngineOk, IssuingOk, RingOk, SameOutside, Engine.Live, Linked, Stage.Transfer, Stage.Running,
           Simulation.Valid, Simulation.Live, Simulation.View, TransportRuntime.Retained, Received;
      ghost var ring, live := View(), ctx.Live();
      CompletionFacts(transport.View(), live, ctx.now, transfers, consumed, completion);
      assert completion.transfer in transfers;
      TransferFinds(ring, live, completion.transfer);
      var found := transfers[completion.transfer];
      assert completion.delivered.bytes + (completion.bufferFull.bytes + completion.linkDown.bytes) == found.bytes;
      TransferArrives(ring, live, completion.transfer, completion.succeeded, completion.delivered.bytes);
      assert found.collective < |records|;
      var record := records[found.collective];
      record := record.(result := record.result.(delivered := record.result.delivered + completion.delivered.bytes));
      if !completion.succeeded {
        record := record.(failed := true);
      }
      transfers := transfers - {completion.transfer};
      record := record.(pending := record.pending - 1);
      ghost var rank := ranks[completion.transfer];
      ghost var course := Settles(courses[found.collective], rank, completion.succeeded, completion.delivered.bytes);
      Update(found.collective, record, course);
      assert View() == Closed(ring, found.collective, course, true, completion.transfer);
      r := Advance(ctx, transport, found.collective, record.Stage().n, consumed + [completion]);
    }

    /** `cancel`: an unfinished collective will finish as cancelled once its round is over. */
    method Cancel(id: nat, ghost live: EventTable)
      requires Valid(live) && id < |records|
      modifies this`records, this`courses
      ensures Valid(live)
      ensures records == if old(records)[id].finished then old(records)
              else old(records)[id := old(records)[id].(cancelled := true)]
    {
      hide RingOk;
      if !records[id].finished {
        CancelStep(View(), live, id);
        Update(id, records[id].(cancelled := true), courses[id].(record := courses[id].record.(cancelled := true)));
      }
    }

    /** `take_completed`. */
    method TakeCompleted(ghost live: EventTable) returns (results: seq<CollectiveResult>)
      requires Valid(live)
      modifies this`completed, this`taken
      ensures Valid(live) && results == old(completed) && completed == [] && taken == old(taken) + results
    {
      hide RingOk;
      results := completed;
      assert (taken + completed) + [] == taken + completed;
      taken := taken + completed;
      completed := [];
    }

    /** `submit`: a ring of one finishes at once, any other starts its first round. */
    method Submit(ctx: Simulation, transport: TransportRuntime, request: CollectiveRequest,
                  ghost consumed: seq<Completion>)
      returns (r: Result<nat>)
      requires ctx.Valid() && ctx.lifecycle == Running && transport.Valid(ctx.Live(), ctx.now)
               && Joined(transport, consumed)
      requires Valid(ctx.Live())
      modifies this`records, this`courses, this`transfers, this`locals, this`ranks, this`nextFlow, this`completed,
               this`timeline, this`participantEntries
      modifies transport`chunks, transport`transfers, transport`routeEntries, transport`chunkIds,
               transport`transferIds, transport`submitted
      modifies ctx`nextEventId, ctx`idsExhausted, ctx`queue
      ensures ctx.Valid()
      ensures r.Throw? ==> r.error != LogicError
      ensures r.Ok? ==> ctx.Valid() && transport.Valid(ctx.Live(), ctx.now) && Joined(transport, consumed)
      ensures r.Ok? ==> Valid(ctx.Live()) && SameOutside(old(ctx.Live()), ctx.Live())
      ensures r.Ok? ==> r.value == |old(records)| && |records| == r.value + 1
                        && records == old(records) + [records[r.value]]
      ensures r.Ok? ==> ReportsOf(old(completed), completed, records, r.value) && records[r.value].request == request
    {
      hide FabricOk, EngineOk, IssuingOk, RingOk, SameOutside, Engine.Live, Linked, Stage.Transfer, Stage.Running,
           Simulation.Valid, Simulation.Live, Simulation.View, TransportRuntime.Retained, TransportRuntime.Valid,
           FirstBoard;
      OutsideSame(ctx.Live());
      var n := |request.participants|;
      if n == 0 || n > 8192 || request.chunkBytes == 0 {
        return Throw(InvalidArgument);
      }
      var volume := PlannedVolume(n, request.bytes);
      if volume.Throw? {
        return Throw(volume.error);
      }
      if |records| >= configuration.maximumCollectives
        || n > configuration.maximumParticipantEntries - participantEntries {
        return Throw(LengthError);
      }
      var known := CheckParticipants(request.participants);
      if !known {
        return Throw(InvalidArgument);
      }
      var id := |records|;
      var record := FreshRecord(request, id, volume.value, ctx.now);
      ghost var course, ring, before := FreshCourse(request, id, volume.value, ctx.now), View(), records;
      PlannedIsWhole(record, volume.value);
      Append(record, course);
      participantEntries := participantEntries + n;
      var started: Result<()>;
      if n == 1 {
        SubmittedAlone(ring, ctx.Live(), course, ctx.now);
        started := Finish(id, ctx.now, ctx.Live());
      } else {
        Submitted(ring, ctx.Live(), course);
        started := StartRound(ctx, transport, id, consumed);
      }
      if started.Throw? {
        return Throw(started.error);
      }
      Appended(before, record, records, id);
      return Ok(id);
    }

    method Append(record: Record, ghost course: Course)
      requires Mirrors() && record == course.record && Known(record)
      modifies this`records, this`courses
      ensures Mirrors() && records == old(records) + [record] && courses == old(courses) + [course]
    {
      records := records + [record];
      courses := courses + [course];
    }

    /** Every participant is a known GPU, and no two are the same. */
    method CheckParticipants(participants: seq<nat>) returns (ok: bool)
      ensures ok <==> (forall i :: 0 <= i < |participants| ==>
                         participants[i] < |gpus| && gpus[participants[i]].id == participants[i])
                      && (forall i, j :: 0 <= i < j < |participants| ==> participants[i] != participants[j])
    {
      var unique: set<nat> := {};
      for k := 0 to |participants|
        invariant forall gpu :: gpu in unique <==> exists i :: 0 <= i < k && participants[i] == gpu
        invariant forall i :: 0 <= i < k ==> participants[i] < |gpus| && gpus[participants[i]].id == participants[i]
        invariant forall i, j :: 0 <= i < j < k ==> participants[i] != participants[j]
      {
        var gpu := participants[k];
        if !(gpu < |gpus| && gpus[gpu].id == gpu) || gpu in unique {
          return false;
        }
        unique := unique + {gpu};
      }
      return true;
    }
  }

  /** A transfer the current round of a collective has to make. */
  ghost predicate Sends(records: seq<Record>, c: nat, transfer: RingTransfer) {
    && c < |records| && !records[c].failed
    && records[c].Stage().Running() && transfer.source < records[c].Stage().n
    && transfer == records[c].Stage().Transfer(transfer.source) && transfer.bytes > 0
  }

  /** What neither issuing nor finishing changes; a failure stays one. */
  ghost predicate Kept(a: Record, b: Record) {
    && b.request == a.request && b.cancelled == a.cancelled && (a.failed ==> b.failed)
    && b.result.id == a.result.id && b.result.started == a.result.started
    && b.result.planned == a.result.planned && b.result.delivered == a.result.delivered
  }

  /** The collective is in its last round. */
  predicate LastRound(r: Record) {
    r.phase == AllGather && r.round + 1 == |r.request.participants| - 1
  }

  /**
   How a collective proceeds: it waits while transfers are pending, and finishes after a failure, a
   cancellation or the last round; otherwise its next round starts, which ends it only if it fails.
   */
  ghost predicate Proceeds(a: Record, b: Record, now: nat) {
    && Kept(a, b) && (a.pending > 0 ==> b == a)
    && (a.pending == 0 && (a.failed || a.cancelled || LastRound(a)) ==> b == RingSteps.Finished(a, now))
    && (a.pending == 0 && !a.failed && !a.cancelled && !LastRound(a) ==>
          if b.finished then b.failed
          else if a.round + 1 == |a.request.participants| - 1 then b.phase == AllGather && b.round == 0
          else b.phase == a.phase && b.round == a.round + 1)
  }

  /** One transfer of a collective has come to its end; the collective counts it and proceeds. */
  ghost predicate Accrued(before: seq<Record>, after: seq<Record>, p: Pending, bytes: nat, succeeded: bool, now: nat) {
    var c := p.collective;
    && c < |before| == |after| && before[c].pending > 0 && after == before[c := after[c]]
    && Proceeds(WithDelivered(before[c], bytes, before[c].failed || !succeeded), after[c], now)
  }

  /** Rank k of a collective has been dealt with: its transfer is issued, unless the collective failed. */
  ghost predicate DealtWith(before: seq<Course>, after: seq<Course>, c: nat, k: nat) {
    && c < |before| == |after| && after == before[c := after[c]]
    && after[c].record.Stage() == before[c].record.Stage() && Kept(before[c].record, after[c].record)
    && (!after[c].record.failed ==>
          && !before[c].record.failed && k in after[c].open
          && forall rank :: rank in before[c].open ==> rank in after[c].open)
  }

  lemma DealtByIssuing(courses: seq<Course>, c: nat, k: nat, fabric: bool, id: nat)
    requires c < |courses| && courses[c].record.Stage().Running() && k < courses[c].record.Stage().n
             && !courses[c].record.failed
    ensures DealtWith(courses, courses[c := Issued(courses[c], k, fabric, id)], c, k)
  {
    hide Stage.Transfer, Stage.Running, PayloadOf;
  }

  /** No record but that of collective `c` changes, and that one only in what issuing and finishing change. */
  ghost predicate OnlyChanges(before: seq<Record>, after: seq<Record>, c: nat) {
    c < |before| == |after| && after == before[c := after[c]] && Kept(before[c], after[c])
  }

  lemma OnlyTransitive(a: seq<Record>, b: seq<Record>, d: seq<Record>, c: nat)
    requires OnlyChanges(a, b, c) && OnlyChanges(b, d, c)
    ensures OnlyChanges(a, d, c)
  {
  }

  ghost predicate FinishedOnly(before: seq<Record>, after: seq<Record>, c: nat, now: nat) {
    c < |before| && after == before[c := RingSteps.Finished(before[c], now)]
  }

  /** A result is reported exactly if the collective finished. */
  ghost predicate ReportsOf(before: seq<CollectiveResult>, after: seq<CollectiveResult>, records: seq<Record>, c: nat) {
    c < |records| && after == if records[c].finished then before + [records[c].result] else before
  }

  /** The plan of the round collective `c` is in. */
  ghost predicate Plans(records: seq<Record>, c: nat, plan: seq<RingTransfer>) {
    && c < |records| && records[c].Stage().Running() && |plan| == records[c].Stage().n
    && forall rank :: 0 <= rank < |plan| ==> plan[rank] == records[c].Stage().Transfer(rank)
  }

  ghost predicate IssuedUpTo(courses: seq<Course>, c: nat, k: nat) {
    c < |courses| && AllIssued(courses[c], k)
  }

  lemma NoneIssued(courses: seq<Course>, c: nat, records: seq<Record>, plan: seq<RingTransfer>)
    requires c < |courses| == |records| && records[c] == courses[c].record && Plans(records, c, plan)
    ensures IssuedUpTo(courses, c, 0)
  {
  }

  lemma PlansAt(records: seq<Record>, c: nat, plan: seq<RingTransfer>, k: nat)
    requires Plans(records, c, plan) && k < |plan|
    ensures c < |records| && records[c].Stage().Running() && k < records[c].Stage().n
    ensures plan[k].source == k && plan[k] == records[c].Stage().Transfer(k)
  {
  }

  lemma PlansLength(records: seq<Record>, c: nat, plan: seq<RingTransfer>)
    requires Plans(records, c, plan)
    ensures c < |records| && |plan| == records[c].Stage().n
  {
  }

  lemma PlansRound(records: seq<Record>, c: nat, plan: seq<RingTransfer>)
    requires c < |records| && records[c].Stage().Running() && |plan| == records[c].Stage().n
    requires forall rank :: 0 <= rank < |plan| ==>
               plan[rank] == Planned(|plan|, records[c].request.bytes, records[c].phase, records[c].round, rank)
    ensures Plans(records, c, plan)
  {
  }

  lemma MirrorsChange(before: seq<Course>, after: seq<Course>, old': seq<Record>, new': seq<Record>, c: nat, k: nat,
                      plan: seq<RingTransfer>)
    requires DealtWith(before, after, c, k) && IssuedUpTo(before, c, k) && Plans(old', c, plan) && k < |plan|
    requires |before| == |old'| && |after| == |new'|
    requires forall i :: 0 <= i < |before| ==> before[i].record == old'[i]
    requires forall i :: 0 <= i < |after| ==> after[i].record == new'[i]
    ensures OnlyChanges(old', new', c) && Plans(new', c, plan) && IssuedUpTo(after, c, k + 1)
    ensures new'[c].Stage() == old'[c].Stage()
  {
    hide Stage.Transfer, Stage.Running;
    AllIssuedNext(before[c], after[c], k);
  }

  lemma PassedUpTo(courses: seq<Course>, c: nat, records: seq<Record>, plan: seq<RingTransfer>, k: nat)
    requires IssuedUpTo(courses, c, k) && Plans(records, c, plan) && k < |plan|
    requires c < |courses| && records[c] == courses[c].record
    requires plan[k].bytes == 0 || records[c].failed
    ensures IssuedUpTo(courses, c, k + 1)
  {
    hide Stage.Transfer, Stage.Running;
  }

  lemma StageRuns(ring: Ring, live: EventTable, c: nat, k: nat)
    requires IssuingOk(ring, live, c, k)
    ensures c < |ring.courses| && !ring.courses[c].record.finished
    ensures ring.courses[c].record.Stage().Running() && k <= ring.courses[c].record.Stage().n
    ensures PlannedVolume(ring.courses[c].record.Stage().n, ring.courses[c].record.Stage().bytes).Ok?
    ensures ring.courses[c].record.pending == |ring.courses[c].open|
  {
    hide TablesOk, LocalsOk, CourseOk, ResultsOk, BytesOk, BoardOk;
  }

  lemma RoundStarted(ring: Ring, live: EventTable, c: nat)
    requires c < |ring.courses| && IssuingOk(ring, live, c, ring.courses[c].record.Stage().n)
    requires IssuedUpTo(ring.courses, c, ring.courses[c].record.Stage().n)
    ensures ring.courses[c].record.failed || ring.courses[c].record.pending > 0
  {
    hide IssuingOk, AllIssued;
    StageRuns(ring, live, c, ring.courses[c].record.Stage().n);
    RoundWaits(ring.courses[c]);
  }

  /** What the next outcome of the transport runtime says about the transfer it is for. */
  lemma CompletionFacts(f: Fabric, live: EventTable, now: nat, ring: map<nat, Pending>, consumed: seq<Completion>,
                        completion: Completion)
    requires FabricOk(f, live, now) && Linked(ring, f.transfers, f.submitted, consumed)
    requires consumed + [completion] <= f.emitted
    ensures completion.transfer in ring
    ensures completion.delivered.bytes + completion.bufferFull.bytes + completion.linkDown.bytes
            == ring[completion.transfer].bytes
    ensures completion.succeeded ==> completion.delivered.bytes == ring[completion.transfer].bytes
    ensures Linked(ring - {completion.transfer}, f.transfers, f.submitted, consumed + [completion])
  {
    hide MotionOk, IdsOk, ArcsOk, SubmittedOk, OwnersOk;
    var k := |consumed|;
    assert f.emitted[..k] == consumed && f.emitted[k] == completion;
    NextIsAwaited(ring, f.transfers, f.submitted, f.emitted, k);
    assert AccountOk(completion.transfer, f.transfers[completion.transfer], f.chunks);
    CompletionAccounts(completion.transfer, f.transfers[completion.transfer], f.chunks);
    LinkedConsumes(ring, f.transfers, f.submitted, consumed, completion);
  }

  lemma CancelStep(ring: Ring, live: EventTable, c: nat)
    requires RingOk(ring, live) && c < |ring.courses| && !ring.courses[c].record.finished
    ensures RingOk(WithCourse(ring, c, ring.courses[c].(record := ring.courses[c].record.(cancelled := true))), live)
  {
    hide TablesOk, LocalsOk, CourseOk, ResultsOk;
    var course := ring.courses[c].(record := ring.courses[c].record.(cancelled := true));
    assert CourseOk(ring.courses[c]);
    RingSteps.CancelKeeps(ring.courses[c]);
    SameTickets(ring, c, course);
    ResultIdOf(ring, c);
    ResultsKept(ring.courses, ring.results, c, course);
  }

  lemma PlannedIsWhole(record: Record, planned: nat)
    requires PlannedVolume(record.Stage().n, record.Stage().bytes) == Ok(planned)
    requires record.request.chunkBytes > 0 && record.result.planned == planned
    ensures PlanOk(record) && (record.Stage().n == 1 ==> planned == 0)
  {
  }

  lemma Appended(before: seq<Record>, record: Record, after: seq<Record>, id: nat)
    requires id == |before| && (OnlyChanges(before + [record], after, id)
                                || exists now :: FinishedOnly(before + [record], after, id, now))
    ensures |after| == id + 1 && after == before + [after[id]] && after[id].request == record.request
  {
    assert (before + [record])[id] == record;
    assert after[..id] == before;
  }
}
