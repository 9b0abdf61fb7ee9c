/**
 The training composition: `TrainingDispatcher` of `simulator/include/nexuslab/workload/dispatcher.hpp`,
 and the run and report of `simulator/src/workload/run.cpp`.
 */
module Training {
  import opened Prelude
  import opened Events
  import opened Simulations
  import opened Links
  import opened Topology
  import opened Graphs
  import opened JobState
  import opened JobSteps
  import opened Placements
  import opened Inventory
  import opened RingState
  import opened RingTables
  import opened RingModel
  import opened RingExecutors
  import opened TransportState
  import opened TransportModel
  import opened Transport
  import opened Cluster
  import opened ClusterModel
  import opened Workloads
  import opened Engines

  /** The queue before an event was taken off it. */
  ghost function With(live: EventTable, event: Event): EventTable {
    live[event.id := event]
  }

  // What each runtime makes of an event that is not its own

  lemma FabricAside(f: Fabric, live: EventTable, now: nat, event: Event)
    requires FabricOk(f, With(live, event), now) && event.id !in live && !IsTransport(event.payload)
    ensures FabricOk(f, live, now)
  {
    hide FabricOk;
    assert SameTransport(With(live, event), live);
    FabricFrame(f, With(live, event), now, live, now);
  }

  lemma RingAside(ring: Ring, live: EventTable, event: Event)
    requires RingOk(ring, With(live, event)) && event.id !in live && !event.payload.LocalCompletion?
    ensures RingOk(ring, live)
  {
    hide RingOk, IssuingOk;
    assert SameLocals(With(live, event), live);
    RingFrame(ring, With(live, event), live, 0, 0);
  }

  lemma JobsAside(s: Jobs, live: EventTable, now: nat, count: nat, results: seq<CollectiveResult>, event: Event)
    requires AllOk(s, With(live, event), now, count, results) && event.id !in live && !event.payload.Workload?
    ensures AllOk(s, live, now, count, results) && !event.payload.NoOp?
  {
    assert With(live, event)[event.id] == event;
    assert !event.payload.NoOp? by {
      hide OthersOk, OwnershipOk, CollectivesOk, AdmissionOk, CalmOk;
    }
    assert CalmOk(s.calm, live) by {
      hide OthersOk, EventsOk, OwnershipOk, CollectivesOk, AdmissionOk, CalmOk;
      CalmLess(s.calm, live, event);
    }
    hide AllBut, CalmOk;
    assert OnlyOthers(With(live, event), live);
    Elsewhere(s, With(live, event), now, count, results, |s.jobs|, live);
  }

  lemma JobsOutside(s: Jobs, live: EventTable, now: nat, count: nat, results: seq<CollectiveResult>, live': EventTable)
    requires AllOk(s, live, now, count, results) && SameOutside(live, live')
    ensures AllOk(s, live', now, count, results)
  {
    hide AllBut, CalmOk;
    OutsideIsOthers(live, live');
    CalmOutside(s, live, now, count, results, |s.jobs|, live');
    Elsewhere(s, live, now, count, results, |s.jobs|, live');
  }

  lemma LinkedTotals(ring: map<nat, Pending>, before: TransferTable, after: TransferTable, submitted: set<nat>,
                     consumed: seq<Completion>)
    requires Linked(ring, before, submitted, consumed) && SameTotals(before, after)
    ensures Linked(ring, after, submitted, consumed)
  {
    hide WasEmitted;
  }

  class TrainingDispatcher {
    const jobs: WorkloadEngine
    const collectives: RingExecutor
    const transport: TransportRuntime

    constructor (jobs: WorkloadEngine, collectives: RingExecutor, transport: TransportRuntime)
      ensures this.jobs == jobs && this.collectives == collectives && this.transport == transport
    {
      this.jobs, this.collectives, this.transport := jobs, collectives, transport;
    }

    /** The three runtimes agree with each other and with the pending events. */
    ghost predicate Agree(ctx: Simulation)
      reads ctx, jobs, jobs.inventory, collectives, transport
    {
      && Lower(ctx, transport, collectives, transport.taken)
      && jobs.Valid(ctx.Live(), ctx.now, |collectives.records|, collectives.taken)
    }

    /** Between two events nothing is left to pump, and no waiting job could be placed. */
    ghost predicate Settled(ctx: Simulation)
      reads ctx, jobs, jobs.inventory, collectives, transport
    {
      && Agree(ctx) && transport.completions == [] && collectives.completed == []
      && (jobs.inventory != null ==> jobs.open == {})
    }

    /** The first loop of `pump`: collectives learn how their transfers ended. */
    method PumpTransfers(ctx: Simulation) returns (r: Result<()>)
      requires Agree(ctx)
      modifies transport, collectives, ctx`nextEventId, ctx`idsExhausted, ctx`queue
      ensures ctx.Valid()
      ensures r.Throw? ==> r.error != LogicError
      ensures r.Ok? ==> Agree(ctx) && transport.completions == []
    {
      hide FabricOk, EngineOk, Engine.Live, RingOk, Linked, AllOk, Healthy;
      ghost var consumed := transport.taken;
      var batch := transport.TakeCompleted();
      assert consumed + batch[..0] == consumed;
      hide Lower, WorkloadEngine.Valid;
      for i := 0 to |batch|
        invariant Lower(ctx, transport, collectives, consumed + batch[..i])
        invariant transport.taken == consumed + batch && transport.completions == []
        invariant jobs.Valid(ctx.Live(), ctx.now, |collectives.records|, collectives.taken)
      {
        assert consumed + batch[..i] + [batch[i]] == consumed + batch[..i + 1];
        assert consumed + batch[..i + 1] <= consumed + batch;
        r := PumpTransfer(ctx, batch[i], consumed + batch[..i]);
        if r.Throw? {
          return;
        }
      }
      assert batch[..|batch|] == batch;
      return Ok(());
    }

    method PumpTransfer(ctx: Simulation, completion: Completion, ghost consumed: seq<Completion>)
      returns (r: Result<()>)
      requires Lower(ctx, transport, collectives, consumed)
      requires jobs.Valid(ctx.Live(), ctx.now, |collectives.records|, collectives.taken)
      requires consumed + [completion] <= transport.taken + transport.completions
      modifies collectives`records, collectives`courses, collectives`transfers, collectives`locals, collectives`ranks,
               collectives`nextFlow, collectives`completed, collectives`timeline
      modifies transport`chunks, transport`transfers, transport`routeEntries, transport`chunkIds,
               transport`transferIds, transport`submitted
      modifies ctx`nextEventId, ctx`idsExhausted, ctx`queue
      ensures ctx.Valid()
      ensures r.Throw? ==> r.error != LogicError
      ensures r.Ok? ==> Lower(ctx, transport, collectives, consumed + [completion])
      ensures r.Ok? ==> jobs.Valid(ctx.Live(), ctx.now, |collectives.records|, collectives.taken)
    {
      hide FabricOk, EngineOk, Engine.Live, RingOk, Linked, AllOk, Healthy, SameOutside, Accrued;
      ghost var live := ctx.Live();
      r := collectives.HandleTransfer(ctx, transport, completion, consumed);
      if r.Ok? {
        JobsOutside(jobs.View(), live, ctx.now, |collectives.records|, collectives.taken, ctx.Live());
      }
    }

    /** Jobs learn how their collectives ended, in the order in which they ended. */
    method PumpResults(ctx: Simulation, batch: seq<CollectiveResult>, ghost results: seq<CollectiveResult>)
      returns (r: Result<()>)
      requires Lower(ctx, transport, collectives, transport.taken) && collectives.taken == results + batch
      requires jobs.Valid(ctx.Live(), ctx.now, |collectives.records|, results)
      modifies jobs, jobs.inventory
      modifies collectives`records, collectives`courses, collectives`transfers, collectives`locals, collectives`ranks,
               collectives`nextFlow, collectives`completed, collectives`timeline, collectives`participantEntries
      modifies transport`chunks, transport`transfers, transport`routeEntries, transport`chunkIds,
               transport`transferIds, transport`submitted
      modifies ctx`nextEventId, ctx`idsExhausted, ctx`queue, ctx`cancelledIds, ctx`cancelledEvents, ctx`everCancelled
      ensures ctx.Valid()
      ensures r.Throw? ==> r.error != LogicError
      ensures r.Ok? ==> Agree(ctx) && Load(jobs.jobs) + |batch| <= old(Load(jobs.jobs))
    {
      hide Lower, WorkloadEngine.Valid, Engine.Live, Load, Took, OnlyJob;
      assert results + batch[..0] == results;
      for i := 0 to |batch|
        invariant Lower(ctx, transport, collectives, transport.taken) && collectives.taken == results + batch
        invariant jobs.Valid(ctx.Live(), ctx.now, |collectives.records|, results + batch[..i])
        invariant Load(jobs.jobs) + i <= old(Load(jobs.jobs))
      {
        assert results + batch[..i] + [batch[i]] == results + batch[..i + 1];
        assert results + batch[..i + 1] <= results + batch;
        r := jobs.HandleResult(ctx, transport, collectives, batch[i], transport.taken, results + batch[..i]);
        if r.Throw? {
          return;
        }
      }
      assert batch[..|batch|] == batch;
      LowerValid(ctx, transport, collectives, transport.taken);
      return Ok(());
    }

    /** `pump`. Its loop ends because every result a job consumes leaves it with fewer it can still consume. */
    method Pump(ctx: Simulation) returns (r: Result<()>)
      requires Agree(ctx)
      modifies jobs, jobs.inventory, transport, collectives
      modifies ctx`nextEventId, ctx`idsExhausted, ctx`queue, ctx`cancelledIds, ctx`cancelledEvents, ctx`everCancelled
      ensures ctx.Valid()
      ensures r.Throw? ==> r.error != LogicError
      ensures r.Ok? ==> Settled(ctx)
    {
      hide Lower, WorkloadEngine.Valid, Engine.Live, Load;
      r := PumpTransfers(ctx);
      if r.Throw? {
        return;
      }
      while true
        invariant Agree(ctx) && transport.completions == []
        decreases Load(jobs.jobs)
      {
        r := jobs.DispatchWaiting(ctx, transport, collectives, transport.taken, collectives.taken);
        if r.Throw? {
          return;
        }
        ghost var results := collectives.taken;
        var batch := TakeResults(ctx);
        if batch == [] {
          assert results + batch == results;
          return Ok(());
        }
        r := PumpResults(ctx, batch, results);
        if r.Throw? {
          return;
        }
      }
    }

    method TakeResults(ctx: Simulation) returns (batch: seq<CollectiveResult>)
      requires Lower(ctx, transport, collectives, transport.taken)
      modifies collectives`completed, collectives`taken
      ensures Lower(ctx, transport, collectives, transport.taken)
      ensures batch == old(collectives.completed) && collectives.completed == []
              && collectives.taken == old(collectives.taken) + batch
    {
      hide FabricOk, EngineOk, Engine.Live, RingOk, Linked;
      batch := collectives.TakeCompleted(ctx.Live());
    }

    /** The three runtimes with an event that has just been taken off the queue. */
    ghost predicate Popped(ctx: Simulation, event: Event)
      reads ctx, jobs, jobs.inventory, collectives, transport
    {
      && ctx.Valid() && ctx.lifecycle == Running && event.id !in ctx.Live() && event.timestamp == ctx.now
      && event.id < ctx.View().issued
      && transport.Valid(With(ctx.Live(), event), ctx.now) && collectives.Valid(With(ctx.Live(), event))
      && collectives.Joined(transport, transport.taken) && transport.completions == [] && collectives.completed == []
      && jobs.Valid(With(ctx.Live(), event), ctx.now, |collectives.records|, collectives.taken)
    }

    /** A workload event goes to the workload engine. */
    method OnWorkload(ctx: Simulation, event: Event) returns (r: Result<()>)
      requires Popped(ctx, event) && event.payload.Workload?
      modifies jobs, jobs.inventory, transport, collectives
      modifies ctx`nextEventId, ctx`idsExhausted, ctx`queue, ctx`cancelledIds, ctx`cancelledEvents, ctx`everCancelled
      ensures ctx.Valid()
      ensures r.Throw? ==> r.error != LogicError
      ensures r.Ok? ==> Settled(ctx)
    {
      hide FabricOk, EngineOk, Engine.Live, RingOk, Linked, AllOk, Healthy, Settled;
      FabricAside(transport.View(), ctx.Live(), ctx.now, event);
      RingAside(collectives.View(), ctx.Live(), event);
      assert collectives.taken + collectives.completed == collectives.taken;
      r := jobs.HandleEvent(ctx, transport, collectives, event, transport.taken, collectives.taken);
      if r.Ok? {
        r := Pump(ctx);
      }
    }

    /** A local completion goes to the collective executor. */
    method OnLocal(ctx: Simulation, event: Event) returns (r: Result<()>)
      requires Popped(ctx, event) && event.payload.LocalCompletion?
      modifies jobs, jobs.inventory, transport, collectives
      modifies ctx`nextEventId, ctx`idsExhausted, ctx`queue, ctx`cancelledIds, ctx`cancelledEvents, ctx`everCancelled
      ensures ctx.Valid()
      ensures r.Throw? ==> r.error != LogicError
      ensures r.Ok? ==> Settled(ctx)
    {
      hide FabricOk, EngineOk, Engine.Live, RingOk, Linked, AllOk, Healthy, SameOutside, Settled, Accrued, ReportsOf;
      ghost var live := ctx.Live();
      FabricAside(transport.View(), live, ctx.now, event);
      JobsAside(jobs.View(), live, ctx.now, |collectives.records|, collectives.taken, event);
      r := collectives.HandleLocal(ctx, transport, event, transport.taken);
      if r.Ok? {
        JobsOutside(jobs.View(), live, ctx.now, |collectives.records|, collectives.taken, ctx.Live());
        r := Pump(ctx);
      }
    }

    /** What the other runtimes need to know after the transport runtime has handled an event. */
    ghost predicate Passed(ctx: Simulation, live: EventTable, transfers: TransferTable)
      reads ctx, jobs, jobs.inventory, collectives, transport
    {
      && ctx.Valid() && ctx.lifecycle == Running && transport.Valid(ctx.Live(), ctx.now)
      && SameForeign(live, ctx.Live())
      && SameTotals(transfers, transport.transfers)
      && collectives.Valid(live) && Linked(collectives.transfers, transfers, transport.submitted, transport.taken)
      && jobs.Valid(live, ctx.now, |collectives.records|, collectives.taken)
    }

    method AfterTransport(ctx: Simulation, ghost live: EventTable, ghost transfers: TransferTable)
      returns (r: Result<()>)
      requires Passed(ctx, live, transfers)
      modifies jobs, jobs.inventory, transport, collectives
      modifies ctx`nextEventId, ctx`idsExhausted, ctx`queue, ctx`cancelledIds, ctx`cancelledEvents, ctx`everCancelled
      ensures ctx.Valid()
      ensures r.Throw? ==> r.error != LogicError
      ensures r.Ok? ==> Settled(ctx)
    {
      hide FabricOk, EngineOk, Engine.Live, RingOk, Linked, AllOk, Healthy, SameForeign, SameTotals, IssuingOk,
           SameOutside;
      ForeignIsOutside(live, ctx.Live());
      RingFrame(collectives.View(), live, ctx.Live(), 0, 0);
      LinkedTotals(collectives.transfers, transfers, transport.transfers, transport.submitted, transport.taken);
      JobsOutside(jobs.View(), live, ctx.now, |collectives.records|, collectives.taken, ctx.Live());
      r := Pump(ctx);
    }

    /** A transport event goes to the transport runtime. */
    method OnTransport(ctx: Simulation, event: Event) returns (r: Result<()>)
      requires Popped(ctx, event) && IsTransport(event.payload)
      modifies jobs, jobs.inventory, transport, collectives
      modifies ctx`nextEventId, ctx`idsExhausted, ctx`queue, ctx`cancelledIds, ctx`cancelledEvents, ctx`everCancelled
      ensures ctx.Valid()
      ensures r.Throw? ==> r.error != LogicError
      ensures r.Ok? ==> Settled(ctx)
    {
      hide FabricOk, EngineOk, Engine.Live, RingOk, Linked, AllOk, Healthy, SameForeign, SameTotals, Settled, LedTo,
           Propagated;
      ghost var live, transfers := ctx.Live(), transport.transfers;
      RingAside(collectives.View(), live, event);
      JobsAside(jobs.View(), live, ctx.now, |collectives.records|, collectives.taken, event);
      TotalsSame(transfers);
      if event.payload.ChunkArrival? {
        r := transport.HandleArrival(ctx, event);
      } else {
        r := transport.HandleCompletion(ctx, event);
      }
      if r.Ok? {
        r := AfterTransport(ctx, live, transfers);
      }
    }

    /** A state change of the topology goes to the transport runtime. */
    method OnStateChange(ctx: Simulation, event: Event) returns (r: Result<()>)
      requires Popped(ctx, event) && IsStateChange(event.payload)
      modifies jobs, jobs.inventory, transport, collectives
      modifies ctx`nextEventId, ctx`idsExhausted, ctx`queue, ctx`cancelledIds, ctx`cancelledEvents, ctx`everCancelled
      ensures ctx.Valid()
      ensures r.Ok? ==> Settled(ctx)
    {
      hide FabricOk, EngineOk, Engine.Live, RingOk, Linked, AllOk, Healthy, SameForeign, SameTotals, Settled;
      ghost var live, transfers := ctx.Live(), transport.transfers;
      RingAside(collectives.View(), live, event);
      JobsAside(jobs.View(), live, ctx.now, |collectives.records|, collectives.taken, event);
      FabricAside(transport.View(), live, ctx.now, event);
      r := transport.HandleStateChange(ctx, event.payload);
      if r.Ok? {
        r := AfterTransport(ctx, live, transfers);
      }
    }

    /** `operator()`: each event goes to its runtime, and what it brought about is pumped through. */
    method Dispatch(ctx: Simulation, event: Event) returns (r: Result<()>)
      requires Popped(ctx, event)
      modifies jobs, jobs.inventory, transport, collectives
      modifies ctx`nextEventId, ctx`idsExhausted, ctx`queue, ctx`cancelledIds, ctx`cancelledEvents, ctx`everCancelled
      ensures ctx.Valid()
      ensures r.Throw? && r.error == LogicError ==> IsStateChange(event.payload)
      ensures r.Ok? ==> Settled(ctx)
    {
      hide Settled, Lower, AllOk, FabricOk, RingOk, Linked, EngineOk, Healthy;
      match event.payload {
        case Workload(_, _, _, _, _) =>
          r := OnWorkload(ctx, event);
        case LocalCompletion(_, _, _, _) =>
          r := OnLocal(ctx, event);
        case NoOp(_) =>
          NoNoOps(jobs.View(), ctx.Live(), ctx.now, |collectives.records|, collectives.taken, event);
          assert false;
        case ChunkArrival(_, _) =>
          r := OnTransport(ctx, event);
        case TransmissionComplete(_, _, _) =>
          r := OnTransport(ctx, event);
        case _ =>
          r := OnStateChange(ctx, event);
      }
    }

    /** One event is taken off the queue. */
    method PopNext(ctx: Simulation) returns (next: Option<Event>)
      requires Settled(ctx)
      modifies ctx`now, ctx`queue, ctx`cancelledIds, ctx`currentEvent, ctx`dispatchedEvents, ctx`dispatchedIds, ctx`log
      ensures ctx.Valid()
      ensures next.Some? ==> Popped(ctx, next.value) && (jobs.calm ==> !IsStateChange(next.value.payload))
      ensures next == None ==> ctx.Live() == map[] && Drained() && ctx.now == old(ctx.now)
      ensures next == None ==> jobs.Valid(map[], ctx.now, |collectives.records|, collectives.taken)
    {
      hide FabricOk, EngineOk, Engine.Live, RingOk, Linked, AllOk, Healthy, PoppedTo;
      ghost var before := ctx.View();
      next := ctx.DispatchNext();
      if next.Some? {
        PopFrame(before, ctx.View(), next.value, transport.View(), jobs.View(), |collectives.records|,
                 collectives.taken);
        NoChange(jobs.View(), ctx.Live(), ctx.now, |collectives.records|, collectives.taken, next.value);
      } else {
        PoppedOnce(before, ctx.View(), next);
        NothingBefore(before, ctx.View());
        assert transport.taken + transport.completions == transport.taken;
        assert collectives.taken + collectives.completed == collectives.taken;
        Quiet(transport.View(), collectives.View(), jobs.View(), before.now);
      }
    }

    /**
     What holds when the event queue has run dry: every collective is finished, every job has ended or
     waits for GPUs it cannot get, and no chunk is on a link.
     */
    ghost predicate Drained()
      reads jobs, jobs.inventory, collectives, transport
    {
      && (forall c :: 0 <= c < |collectives.records| ==> collectives.records[c].finished)
      && (forall j :: 0 <= j < |jobs.jobs| ==> jobs.jobs[j].state.Terminal() || jobs.jobs[j].state.Waiting?)
      && (forall j :: 0 <= j < |jobs.jobs| && jobs.jobs[j].state.Waiting? ==>
            jobs.inventory != null && !Placeable(j, jobs.jobs[j].spec, jobs.inventory.gpus))
      && (forall a :: a in transport.services ==> transport.services[a].Contents() == [])
      && (forall t :: t in transport.submitted ==> t in transport.transfers && transport.transfers[t].completion.Some?)
    }

    /**
     `simulation.run(dispatcher)`, for at most `fuel` events. A run ends completed, with everything drained,
     or failed because a handler threw; it throws a logic error only if state changes were scheduled.
     */
    method Run(ctx: Simulation, fuel: nat) returns (r: Ending)
      requires Settled(ctx)
      modifies jobs, jobs.inventory, transport, collectives, ctx
      ensures ctx.Valid()
      ensures r == Unfinished ==> Settled(ctx)
      ensures r.Ended? ==> ctx.lifecycle == Finished && Reports(ctx.View(), ctx.stopReason, r.result)
      ensures r.Ended? ==> r.result.status == (if r.error == None then Completed else Status.Failed)
      ensures r.Ended? && r.error == None ==>
                Drained() && jobs.Valid(map[], r.result.finalTime, |collectives.records|, collectives.taken)
      ensures r.Ended? && jobs.calm ==> r.error != Some(LogicError)
    {
      hide Settled, Popped, Drained, ProperHistory, WorkloadEngine.Valid, EngineOk, Reports, IsStateChange;
      var steps := 0;
      while steps < fuel
        invariant Settled(ctx) && steps <= fuel
      {
        SettledValid(this, ctx);
        var next := PopNext(ctx);
        if next == None {
          var result := ctx.Finish(Completed);
          ReportsNow(ctx.View(), ctx.stopReason, result.value);
          return Ended(result.value, None);
        }
        var handled := Dispatch(ctx, next.value);
        if handled.Throw? {
          var result := ctx.Finish(Status.Failed);
          return Ended(result.value, Some(handled.error));
        }
        steps := steps + 1;
      }
      SettledValid(this, ctx);
      return Unfinished;
    }

    /** The report of a completed run: neither an unfinished active job nor a pending collective is found. */
    method Report(result: SimulationResult) returns (r: Result<TrainingReport>)
      requires Drained() && jobs.Valid(map[], result.finalTime, |collectives.records|, collectives.taken)
      ensures r.Throw? ==> r.error == OverflowError
      ensures r.Ok? ==> r.value.simulation == result && |r.value.collectives| == |collectives.records|
      ensures r.Ok? ==> forall c :: 0 <= c < |collectives.records| ==>
                r.value.collectives[c] == collectives.records[c].result
      ensures r.Ok? ==> jobs.completed <= r.value.jobs
      ensures r.Ok? ==> forall i :: |jobs.completed| <= i < |r.value.jobs| ==> r.value.jobs[i].state.Waiting?
      ensures r.Ok? ==> forall j :: 0 <= j < |jobs.jobs| && !jobs.jobs[j].state.Terminal() ==> Covers(r.value.jobs, j)
    {
      hide WorkloadEngine.Valid;
      var waiting := AppendWaiting(result.finalTime, map[]);
      if waiting.Throw? {
        return Throw(waiting.error);
      }
      var finished: seq<CollectiveResult> := [];
      for c := 0 to |collectives.records|
        invariant |finished| == c
        invariant forall k :: 0 <= k < c ==> finished[k] == collectives.records[k].result
      {
        assert collectives.records[c].finished;
        finished := finished + [collectives.records[c].result];
      }
      CoversAfter(jobs.completed, waiting.value);
      return Ok(TrainingReport(result, jobs.completed + waiting.value, finished));
    }

    /** `append_waiting_jobs`: at the end of a completed run every unfinished job is a waiting one. */
    method AppendWaiting(finalTime: nat, ghost live: EventTable) returns (r: Result<seq<JobSnapshot>>)
      requires Drained() && jobs.Valid(live, finalTime, |collectives.records|, collectives.taken)
      ensures r.Throw? ==> r.error == OverflowError
      ensures r.Ok? ==> forall i :: 0 <= i < |r.value| ==> r.value[i].state.Waiting?
      ensures r.Ok? ==> forall j :: 0 <= j < |jobs.jobs| && !jobs.jobs[j].state.Terminal() ==> Covers(r.value, j)
    {
      hide AllOk, Healthy, Inspectable, JobOk, WholeCompute, GpuTime;
      var report: seq<JobSnapshot> := [];
      for j := 0 to |jobs.jobs|
        invariant forall i :: 0 <= i < |report| ==> report[i].state.Waiting?
        invariant forall k :: 0 <= k < j && !jobs.jobs[k].state.Terminal() ==> Covers(report, k)
      {
        JobAt(jobs.View(), live, finalTime, |collectives.records|, collectives.taken, j);
        var snapshot := Inspect(j, jobs.jobs[j], finalTime, finalTime);
        if snapshot.Throw? {
          return Throw(OverflowError);
        }
        if !jobs.jobs[j].state.Terminal() {
          assert jobs.jobs[j].state.Waiting?;
          CoversMore(report, snapshot.value);
          report := report + [snapshot.value];
        }
      }
      return Ok(report);
    }
  }

  lemma NoNoOps(s: Jobs, live: EventTable, now: nat, count: nat, results: seq<CollectiveResult>, event: Event)
    requires AllOk(s, With(live, event), now, count, results)
    ensures !event.payload.NoOp?
  {
    assert With(live, event)[event.id] == event;
    hide OthersOk, OwnershipOk, CollectivesOk, AdmissionOk, CalmOk;
  }

  lemma JobAt(s: Jobs, live: EventTable, now: nat, count: nat, results: seq<CollectiveResult>, j: nat)
    requires AllOk(s, live, now, count, results) && j < |s.jobs|
    ensures Inspectable(s.jobs[j], now) && (s.jobs[j].state.Active() ==> s.jobs[j].stepStarted <= now)
  {
    hide EventsOk, OwnershipOk, CollectivesOk, AdmissionOk, CalmOk, ReadyOk;
    Part(s, live, now, count, results, j);
  }

  /** Time moves on to the first event, which leaves the queue. */
  lemma PopFrame(before: Engine, after: Engine, event: Event, f: Fabric, s: Jobs, count: nat,
                 results: seq<CollectiveResult>)
    requires PoppedTo(before, after, Some(event)) && EngineOk(before)
    requires FabricOk(f, before.Live(), before.now) && AllOk(s, before.Live(), before.now, count, results)
    ensures event.id !in after.Live() && event.timestamp == after.now && event.id < after.issued
    ensures before.Live() == With(after.Live(), event)
    ensures FabricOk(f, before.Live(), after.now) && AllOk(s, before.Live(), after.now, count, results)
  {
    hide FabricOk, AllOk;
    LiveIssued(before);
    hide EngineOk;
    assert before.Live() == With(after.Live(), event);
    FabricFrame(f, before.Live(), before.now, before.Live(), after.now);
    Later(s, before.Live(), before.now, count, results, after.now);
  }

  lemma NothingBefore(before: Engine, after: Engine)
    requires PoppedTo(before, after, None)
    ensures before.Live() == map[] && after.now == before.now
  {
  }

  /** An empty queue means that nothing is left to happen. */
  lemma Quiet(f: Fabric, ring: Ring, s: Jobs, now: nat)
    requires FabricOk(f, map[], now) && RingOk(ring, map[])
             && Linked(ring.transfers, f.transfers, f.submitted, f.emitted)
    requires AllOk(s, map[], now, |ring.courses|, ring.results) && (s.view.Some? ==> s.open == {})
    ensures forall t :: t in f.submitted ==> t in f.transfers && f.transfers[t].completion.Some?
    ensures forall a :: a in f.links ==> f.links[a].Contents() == []
    ensures forall c :: 0 <= c < |ring.courses| ==> ring.courses[c].record.finished
    ensures forall j :: 0 <= j < |s.jobs| ==> s.jobs[j].state.Terminal() || s.jobs[j].state.Waiting?
    ensures forall j :: 0 <= j < |s.jobs| && s.jobs[j].state.Waiting? ==>
              s.view.Some? && !Placeable(j, s.jobs[j].spec, s.view.value)
  {
    assert EmittedOk(f.transfers, f.emitted) by {
      hide MotionOk, ArcsOk, IdsOk, SubmittedOk, OwnersOk, AccountsOk;
    }
    hide FabricOk, RingOk, Linked, EmittedOk;
    QuietFabric(f, map[], now);
    QuietRing(ring, map[], f.transfers, f.submitted, f.emitted);
    QuietJobs(s, map[], now, |ring.courses|, ring.results);
    hide OthersOk, EventsOk, OwnershipOk, CollectivesOk, Placeable;
  }

  /** How a run ended, if it did within its fuel. */
  datatype Ending = Unfinished | Ended(result: SimulationResult, error: Option<Error>)

  datatype TrainingReport = TrainingReport(
    simulation: SimulationResult, jobs: seq<JobSnapshot>, collectives: seq<CollectiveResult>)

  ghost predicate Covers(report: seq<JobSnapshot>, j: nat) {
    exists i :: 0 <= i < |report| && report[i].id == j
  }

  lemma CoversMore(report: seq<JobSnapshot>, s: JobSnapshot)
    ensures Covers(report + [s], s.id) && forall j :: Covers(report, j) ==> Covers(report + [s], j)
  {
    assert (report + [s])[|report|].id == s.id;
    forall j | Covers(report, j) ensures Covers(report + [s], j) {
      var i :| 0 <= i < |report| && report[i].id == j;
      assert (report + [s])[i].id == j;
    }
  }

  lemma CoversAfter(a: seq<JobSnapshot>, b: seq<JobSnapshot>)
    ensures forall j :: Covers(b, j) ==> Covers(a + b, j)
  {
    forall j | Covers(b, j) ensures Covers(a + b, j) {
      var i :| 0 <= i < |b| && b[i].id == j;
      assert (a + b)[|a| + i].id == j;
    }
  }

  lemma SettledValid(dispatcher: TrainingDispatcher, ctx: Simulation)
    requires dispatcher.Settled(ctx)
    ensures ctx.Valid()
  {
    hide FabricOk, RingOk, AllOk, Linked, Healthy;
  }

  lemma NoChange(s: Jobs, live: EventTable, now: nat, count: nat, results: seq<CollectiveResult>, event: Event)
    requires AllOk(s, With(live, event), now, count, results)
    ensures s.calm ==> !IsStateChange(event.payload)
  {
    hide OthersOk, EventsOk, OwnershipOk, CollectivesOk, AdmissionOk, CalmOk;
    CalmLess(s.calm, live, event);
  }

  // Setting a run up

  /** `changes` are state changes of the topology, `controls` cancellations, failures and GPU health events. */
  datatype Scenario = Scenario(
    topology: Graph, links: seq<LinkConfiguration>, limits: Limits, local: CollectiveConfiguration,
    routes: nat -> RoutingOutcome, scheduled: bool, policy: Policy, jobs: seq<JobSpec>, controls: seq<(nat, Payload)>,
    changes: seq<(nat, Payload)>)

  /** Before the run only workload events and state changes are pending. */
  ghost predicate Outsiders(live: EventTable) {
    forall e :: e in live ==> live[e].payload.Workload? || IsStateChange(live[e].payload)
  }

  ghost predicate Prepared(ctx: Simulation, jobs: WorkloadEngine)
    reads ctx, jobs, jobs.inventory
  {
    && ctx.Valid() && ctx.lifecycle == Created && ctx.now == 0
    && jobs.Valid(ctx.Live(), 0, 0, []) && Outsiders(ctx.Live()) && !jobs.admissionPending
  }

  lemma StillOutsiders(live: EventTable, live': EventTable)
    requires Outsiders(live) && OnlyWorkload(live, live')
    ensures Outsiders(live')
  {
    assert forall e :: e in live' && !live'[e].payload.Workload? ==> e in live;
  }

  method ScheduleJobs(ctx: Simulation, jobs: WorkloadEngine, specs: seq<JobSpec>) returns (r: Result<()>)
    requires Prepared(ctx, jobs)
    modifies jobs`jobs, ctx`nextEventId, ctx`idsExhausted, ctx`queue
    ensures Prepared(ctx, jobs)
    ensures r.Throw? ==> r.error != LogicError
    ensures r.Ok? ==> |jobs.jobs| == |old(jobs.jobs)| + |specs|
  {
    hide EngineOk, Engine.Live, AllOk, Healthy, OnlyWorkload, Outsiders;
    for i := 0 to |specs|
      invariant Prepared(ctx, jobs) && |jobs.jobs| == |old(jobs.jobs)| + i
    {
      ghost var live := ctx.Live();
      var scheduled := jobs.Schedule(ctx, specs[i], 0, []);
      StillOutsiders(live, ctx.Live());
      if scheduled.Throw? {
        return Throw(scheduled.error);
      }
    }
    return Ok(());
  }

  method ScheduleControls(ctx: Simulation, jobs: WorkloadEngine, controls: seq<(nat, Payload)>) returns (r: Result<()>)
    requires Prepared(ctx, jobs)
    modifies ctx`nextEventId, ctx`idsExhausted, ctx`queue
    ensures Prepared(ctx, jobs)
    ensures r.Throw? ==> r.error != LogicError
  {
    hide EngineOk, Engine.Live, AllOk, Healthy, OnlyWorkload, Outsiders;
    for i := 0 to |controls|
      invariant Prepared(ctx, jobs)
    {
      var p := controls[i].1;
      if !p.Workload? || p.kind == Arrival || p.kind == ComputeReady {
        return Throw(InvalidArgument);
      }
      ghost var live := ctx.Live();
      var scheduled := jobs.ScheduleControl(ctx, p, controls[i].0, 0, []);
      StillOutsiders(live, ctx.Live());
      if scheduled.Throw? {
        return Throw(scheduled.error);
      }
    }
    return Ok(());
  }

  /** State changes are scheduled from outside; a run with any of them is not calm. */
  method ScheduleChanges(ctx: Simulation, jobs: WorkloadEngine, changes: seq<(nat, Payload)>) returns (r: Result<()>)
    requires Prepared(ctx, jobs) && (changes != [] ==> !jobs.calm)
    modifies ctx`nextEventId, ctx`idsExhausted, ctx`queue
    ensures Prepared(ctx, jobs)
    ensures r.Throw? ==> r.error != LogicError
  {
    hide EngineOk, AllOk, Healthy;
    for i := 0 to |changes|
      invariant Prepared(ctx, jobs)
    {
      if !IsStateChange(changes[i].1) {
        return Throw(InvalidArgument);
      }
      ghost var before := ctx.View();
      var scheduled := ctx.Schedule(changes[i].0, Control, changes[i].1);
      if scheduled.Throw? {
        return Throw(scheduled.error);
      }
      ghost var event := Event(changes[i].0, Control, scheduled.value, ctx.Cause(), changes[i].1);
      ScheduledLive(before, event);
      ChangeAdded(jobs.View(), before.Live(), 0, event);
    }
    return Ok(());
  }

  lemma ChangeAdded(s: Jobs, live: EventTable, now: nat, event: Event)
    requires AllOk(s, live, now, 0, []) && !s.calm && event.id !in live && IsStateChange(event.payload)
    ensures AllOk(s, live[event.id := event], now, 0, [])
  {
    hide AllBut;
    Elsewhere(s, live, now, 0, [], |s.jobs|, live[event.id := event]);
  }

  /** The workload engine with every job, control and state change of the scenario scheduled. */
  method PrepareJobs(ctx: Simulation, scenario: Scenario) returns (r: Result<WorkloadEngine>)
    requires Canonical(scenario.topology)
    requires ctx.Valid() && ctx.lifecycle == Created && ctx.now == 0 && ctx.Live() == map[]
    modifies ctx`nextEventId, ctx`idsExhausted, ctx`queue
    ensures ctx.Valid()
    ensures r.Throw? ==> r.error != LogicError
    ensures r.Ok? ==> fresh(r.value) && (r.value.inventory != null ==> fresh(r.value.inventory))
                      && Prepared(ctx, r.value)
    ensures r.Ok? ==> |r.value.jobs| == |scenario.jobs| && r.value.calm == (scenario.changes == [])
  {
    hide EngineOk, Engine.Live, AllOk, Healthy, Acceptable, Canonical;
    var inventory: ResourceInventory? := null;
    if scenario.scheduled {
      GpusDiffer(scenario.topology);
      var created := ResourceInventory.Create(scenario.topology.gpus);
      if created.Throw? {
        return Throw(created.error);
      }
      inventory := created.value;
    }
    var jobs := new WorkloadEngine(|scenario.topology.gpus|, inventory, scenario.policy, scenario.changes == []);
    var scheduled := ScheduleJobs(ctx, jobs, scenario.jobs);
    if scheduled.Throw? {
      return Throw(scheduled.error);
    }
    scheduled := ScheduleControls(ctx, jobs, scenario.controls);
    if scheduled.Throw? {
      return Throw(scheduled.error);
    }
    scheduled := ScheduleChanges(ctx, jobs, scenario.changes);
    if scheduled.Throw? {
      return Throw(scheduled.error);
    }
    return Ok(jobs);
  }

  lemma GpusDiffer(g: Graph)
    requires Canonical(g)
    ensures forall i, j :: 0 <= i < j < |g.gpus| ==> g.gpus[i].id != g.gpus[j].id
  {
    hide Canonical;
    CanonicalShaped(g);
  }

  /**
   `run_training`, for at most `fuel` events. If the queue drains, every collective is finished and every job
   has ended or waits for GPUs it cannot get, and the report is made without finding otherwise. Without
   state changes of the topology no logic error is ever thrown.
   */
  method RunTraining(scenario: Scenario, fuel: nat)
    returns (r: Result<Option<TrainingReport>>, dispatcher: TrainingDispatcher?)
    requires Canonical(scenario.topology)
    ensures r.Throw? && scenario.changes == [] ==> r.error != LogicError
    ensures r.Ok? && r.value.Some? ==> dispatcher != null && fresh(dispatcher) && dispatcher.Drained()
    ensures r.Ok? && r.value.Some? ==> r.value.value.simulation.status == Completed
    ensures r.Ok? && r.value.Some? ==> |r.value.value.collectives| == |dispatcher.collectives.records|
  {
    hide EngineOk, FabricOk, RingOk, AllOk, Healthy, Linked, TrainingDispatcher.Drained, Acceptable, Canonical;
    dispatcher := null;
    var transport := TransportRuntime.Create(scenario.topology, scenario.links, scenario.limits);
    if transport.Throw? {
      r := Throw(transport.error);
      return;
    }
    var ctx := new Simulation();
    var jobs := PrepareJobs(ctx, scenario);
    if jobs.Throw? {
      r := Throw(jobs.error);
      return;
    }
    var collectives := new RingExecutor(scenario.topology.gpus, scenario.local, scenario.routes);
    dispatcher := new TrainingDispatcher(jobs.value, collectives, transport.value);
    r := Start(dispatcher, ctx, fuel);
  }

  /** Runtimes that have done nothing yet. */
  ghost predicate Unused(dispatcher: TrainingDispatcher)
    reads dispatcher.transport, dispatcher.collectives
  {
    && dispatcher.transport.Valid(map[], 0) && dispatcher.collectives.Valid(map[])
    && dispatcher.transport.transfers == map[] && dispatcher.transport.submitted == {}
    && dispatcher.transport.completions == [] && dispatcher.transport.taken == []
    && dispatcher.collectives.records == [] && dispatcher.collectives.transfers == map[]
    && dispatcher.collectives.completed == [] && dispatcher.collectives.taken == []
  }

  /** The run and its report. */
  method Start(dispatcher: TrainingDispatcher, ctx: Simulation, fuel: nat) returns (r: Result<Option<TrainingReport>>)
    requires Unused(dispatcher) && Prepared(ctx, dispatcher.jobs)
    modifies dispatcher.jobs, dispatcher.jobs.inventory, dispatcher.transport, dispatcher.collectives, ctx
    ensures r.Throw? && dispatcher.jobs.calm ==> r.error != LogicError
    ensures r.Ok? && r.value.Some? ==> dispatcher.Drained() && r.value.value.simulation.status == Completed
    ensures r.Ok? && r.value.Some? ==> |r.value.value.collectives| == |dispatcher.collectives.records|
  {
    hide EngineOk, FabricOk, RingOk, AllOk, Healthy, Linked, Outsiders, TrainingDispatcher.Drained, Engine.Live,
         Reports;
    StartFrame(dispatcher.transport.View(), dispatcher.collectives.View(), ctx.Live());
    NothingLinked();
    ctx.lifecycle := Running;
    var ending := dispatcher.Run(ctx, fuel);
    if ending == Unfinished {
      return Ok(None);
    }
    if ending.error.Some? {
      return Throw(ending.error.value);
    }
    var report := dispatcher.Report(ending.result);
    if report.Throw? {
      return Throw(report.error);
    }
    return Ok(Some(report.value));
  }

  lemma StartFrame(f: Fabric, ring: Ring, live: EventTable)
    requires FabricOk(f, map[], 0) && RingOk(ring, map[]) && Outsiders(live)
    ensures FabricOk(f, live, 0) && RingOk(ring, live)
  {
    hide FabricOk, RingOk;
    assert SameLocals(map[], live) && SameTransport(map[], live);
    RingFrame(ring, map[], live, 0, 0);
    FabricFrame(f, map[], 0, live, 0);
  }

  lemma NothingLinked()
    ensures Linked(map[], map[], {}, [])
  {
  }
}
