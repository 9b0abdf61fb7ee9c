/** `WorkloadEngine`: jobs over the collective executor, the transport runtime and the event engine. */
module Engines {
  import opened Prelude
  import opened Events
  import opened Simulations
  import opened JobState
  import opened JobSteps
  import opened Sorting
  import opened Placements
  import opened Inventory
  import opened RingState
  import opened RingTables
  import opened RingExecutors
  import opened TransportState
  import opened TransportModel
  import opened Transport
  import opened Cluster
  import opened ClusterModel
  import opened Workloads

  /** The runtimes below the workload engine are in order. */
  ghost predicate Lower(ctx: Simulation, transport: TransportRuntime, ring: RingExecutor, consumed: seq<Completion>)
    reads ctx, transport, ring
  {
    && ctx.Valid() && ctx.lifecycle == Running
    && transport.Valid(ctx.Live(), ctx.now) && ring.Valid(ctx.Live()) && ring.Joined(transport, consumed)
  }

  lemma LowerValid(ctx: Simulation, transport: TransportRuntime, ring: RingExecutor, consumed: seq<Completion>)
    requires Lower(ctx, transport, ring, consumed)
    ensures ctx.Valid()
  {
    hide FabricOk, RingOk, Linked, EngineOk;
  }

  /** Workload events are none of the lower runtimes' business. */
  lemma LowerFrame(f: Fabric, ring: Ring, live: EventTable, now: nat, live': EventTable)
    requires FabricOk(f, live, now) && RingOk(ring, live) && OnlyWorkload(live, live')
    ensures FabricOk(f, live', now) && RingOk(ring, live')
  {
    hide FabricOk, RingOk;
    assert SameLocals(live, live') && SameTransport(live, live');
    RingFrame(ring, live, live', 0, 0);
    FabricFrame(f, live, now, live', now);
  }

  /** The lower runtimes leave workload events alone. */
  lemma OutsideIsOthers(live: EventTable, live': EventTable)
    requires SameOutside(live, live')
    ensures OnlyOthers(live, live')
  {
  }

  lemma CalmOutside(s: Jobs, live: EventTable, now: nat, count: nat, results: seq<CollectiveResult>, j: nat,
                    live': EventTable)
    requires AllBut(s, live, now, count, results, j) && SameOutside(live, live')
    ensures CalmOk(s.calm, live')
  {
    hide OthersOk, EventsOk, OwnershipOk, CollectivesOk, AdmissionOk;
    assert forall e :: e in live' && IsStateChange(live'[e].payload) ==> e in live;
  }

  /** Only job j changes. */
  ghost predicate OnlyJob(before: seq<Job>, after: seq<Job>, j: nat) {
    j < |before| == |after| && after == before[j := after[j]]
  }

  /** What becomes of a waiting job: rejected if it never fits, placed if it fits now, or left waiting. */
  ghost predicate Decided(request: JobRequest, gpus: seq<Resource>, state: State) {
    if Misfit(request, gpus) then state == State.Failed
    else if Available(request, gpus) then state.Active()
    else state.Waiting?
  }

  /** Some GPU that a job names is assigned already. */
  ghost predicate Taken(assignments: map<nat, nat>, workers: seq<nat>) {
    exists w :: 0 <= w < |workers| && workers[w] in assignments
  }

  /** A worker has a bucket ready, and the collective of the next bucket may have started. */
  ghost predicate ReadyFor(a: Job, b: Job, p: Payload, c: nat) {
    && p.Workload? && p.worker < |a.events| && a.Column(p.bucket) < |a.events[p.worker]| && p.bucket < |a.ready|
    && Proceeded(WithFired(a, p.worker, p.bucket), b, c)
  }

  /** Ending leaves alone what the job was doing. */
  ghost predicate EndsOnly(a: Job, b: Job) {
    b.active == a.active && b.step == a.step && b.spec == a.spec
  }

  /** What a collective's result does to the job that awaited it. */
  ghost predicate Took(a: Job, b: Job, result: CollectiveResult) {
    if a.state.Terminal() then b == a.(active := None)
    else if result.outcome != Phase.Succeeded then b.state == State.Failed && b.step == a.step
    else if a.completedBuckets + 1 != a.buckets then
      b.state.Active() && b.step == a.step && b.completedBuckets == a.completedBuckets + 1
    else if a.step + 1 == a.spec.steps then b.state == State.Succeeded && b.step == a.step + 1
    else b.state.Active() && b.step == a.step + 1 && b.completedBuckets == 0
  }

  /** Results of the executor name collectives it has. */
  lemma ResultIds(ring: RingExecutor, live: EventTable, results: seq<CollectiveResult>)
    requires ring.Valid(live) && results <= ring.taken + ring.completed
    ensures forall i :: 0 <= i < |results| ==> results[i].id < |ring.records|
  {
    hide CoursesOk, TablesOk, LocalsOk;
    assert forall i :: 0 <= i < |results| ==> results[i] == (ring.taken + ring.completed)[i];
  }

  class WorkloadEngine {
    const gpuCount: nat
    const inventory: ResourceInventory?
    const policy: Policy
    var jobs: seq<Job>
    var assignments: map<nat, nat>
    var collectives: map<nat, nat>
    var admissionPending: bool
    var completed: seq<JobSnapshot>
    ghost var open: set<nat>
    ghost const calm: bool

    ghost function View(): Jobs
      reads this, inventory
    {
      Jobs(jobs, assignments, collectives, if inventory == null then None else Some(inventory.gpus), open, calm)
    }

    /** Between two events, apart from the times and collectives the lower runtimes know about. */
    ghost predicate Valid(live: EventTable, now: nat, count: nat, results: seq<CollectiveResult>)
      reads this, inventory
    {
      && AllOk(View(), live, now, count, results) && Healthy(View().view, None)
      && (inventory != null ==> admissionPending || open == {})
    }

    /** `calm` promises that no state change of the topology will be scheduled. */
    constructor (gpuCount: nat, inventory: ResourceInventory?, policy: Policy, ghost calm: bool)
      requires inventory != null ==> inventory.Valid() && forall i :: 0 <= i < |inventory.gpus| ==>
                 Free(inventory.gpus[i])
      ensures Valid(map[], 0, 0, []) && this.inventory == inventory && jobs == [] && completed == []
              && !admissionPending
      ensures this.calm == calm
    {
      this.gpuCount, this.inventory, this.policy, this.calm := gpuCount, inventory, policy, calm;
      jobs, assignments, collectives, admissionPending, completed, open := [], map[], map[], false, [], {};
    }

    /** `validate`, apart from configured limits: the number of buckets of an acceptable job. */
    method Validate(spec: JobSpec) returns (r: Result<nat>)
      ensures r.Ok? <==> Acceptable(spec, gpuCount, inventory != null)
      ensures r.Ok? ==> r.value == BucketCount(spec)
      ensures r.Throw? ==> r.error == InvalidArgument || r.error == OverflowError
    {
      var workers := if spec.requestedWorkers != 0 then spec.requestedWorkers else |spec.workers|;
      if spec.requestedWorkers != 0 && (inventory == null || spec.workers != []) {
        return Throw(InvalidArgument);
      }
      if workers == 0 || |spec.compute| != workers || spec.steps == 0 || spec.gradientBytes == 0
        || spec.bucketBytes == 0
         || spec.chunkBytes == 0 {
        return Throw(InvalidArgument);
      }
      var unique: set<nat>, total := {}, 0;
      for w := 0 to workers
        invariant total == Sum(spec.compute[..w]) <= U64_MAX
        invariant forall i :: 0 <= i < w ==>
                    spec.compute[i] > 0 && spec.arrival + spec.steps * spec.compute[i] <= U64_MAX
        invariant spec.workers != [] ==>
                    forall gpu :: gpu in unique <==> exists i :: 0 <= i < w && spec.workers[i] == gpu
        invariant spec.workers != [] ==> forall i :: 0 <= i < w ==> spec.workers[i] < gpuCount
        invariant spec.workers != [] ==> forall i, k :: 0 <= i < k < w ==> spec.workers[i] != spec.workers[k]
      {
        if (spec.workers != [] && (spec.workers[w] >= gpuCount || spec.workers[w] in unique)) || spec.compute[w] == 0 {
          return Throw(InvalidArgument);
        }
        if spec.workers != [] {
          unique := unique + {spec.workers[w]};
        }
        assert spec.compute[..w + 1][..w] == spec.compute[..w];
        SumPrefix(spec.compute, w + 1);
        if total + spec.compute[w] > U64_MAX {
          TooMuch(spec, total + spec.compute[w]);
          return Throw(OverflowError);
        }
        total := total + spec.compute[w];
        if spec.arrival + spec.steps * spec.compute[w] > U64_MAX {
          return Throw(OverflowError);
        }
      }
      assert spec.compute[..workers] == spec.compute;
      if spec.steps * total > U64_MAX {
        return Throw(OverflowError);
      }
      return Ok(BucketCount(spec));
    }

    /** `schedule`: the job's arrival is an event, and the job exists from now on. */
    method Schedule(ctx: Simulation, spec: JobSpec, ghost count: nat, ghost results: seq<CollectiveResult>)
      returns (r: Result<nat>)
      requires ctx.Valid() && ctx.lifecycle == Created && Valid(ctx.Live(), ctx.now, count, results)
      modifies this`jobs, ctx`nextEventId, ctx`idsExhausted, ctx`queue
      ensures ctx.Valid() && Valid(ctx.Live(), ctx.now, count, results) && OnlyWorkload(old(ctx.Live()), ctx.Live())
      ensures r.Ok? ==> r.value == |old(jobs)| && |jobs| == r.value + 1 && jobs[..r.value] == old(jobs)
                        && jobs[r.value].spec == spec
      ensures r.Throw? ==> r.error != LogicError && jobs == old(jobs)
    {
      hide EngineOk, AllOk, Healthy, OnlyWorkload, Acceptable, BucketCount;
      WorkloadSame(ctx.Live());
      var buckets := Validate(spec);
      if buckets.Throw? {
        return Throw(buckets.error);
      }
      ghost var before := ctx.View();
      var id := |jobs|;
      var scheduled := ctx.Schedule(spec.arrival, Normal, Workload(id, Arrival, 0, 0, 0));
      if scheduled.Throw? {
        return Throw(scheduled.error);
      }
      ghost var event := Event(spec.arrival, Normal, scheduled.value, ctx.Cause(), Workload(id, Arrival, 0, 0, 0));
      ScheduledLive(before, event);
      AcceptedOk(spec, gpuCount, inventory != null);
      NewJobKeeps(View(), before.Live(), ctx.now, count, results, spec, buckets.value, event);
      WorkloadAdded(before.Live(), event);
      jobs := jobs + [NewJob(spec, buckets.value, scheduled.value)];
      return Ok(id);
    }

    /** `schedule_control` and `schedule_gpu_state`: a control event for a known job and worker, or a known GPU. */
    method ScheduleControl(ctx: Simulation, p: Payload, when: nat, ghost count: nat,
                           ghost results: seq<CollectiveResult>)
      returns (r: Result<nat>)
      requires p.Workload? && p.kind != Arrival && p.kind != ComputeReady
      requires ctx.Valid() && ctx.lifecycle == Created && Valid(ctx.Live(), ctx.now, count, results)
      modifies ctx`nextEventId, ctx`idsExhausted, ctx`queue
      ensures ctx.Valid() && Valid(ctx.Live(), ctx.now, count, results) && OnlyWorkload(old(ctx.Live()), ctx.Live())
      ensures r.Throw? ==> r.error != LogicError && ctx.Live() == old(ctx.Live())
      ensures r.Ok? ==> ControlOk(jobs, View().view, p)
    {
      hide EngineOk, AllOk, Healthy, OnlyWorkload;
      WorkloadSame(ctx.Live());
      if p.kind == GpuDown || p.kind == GpuUp {
        if inventory == null {
          return Throw(InvalidArgument);
        }
        var known := exists i :: 0 <= i < |inventory.gpus| && inventory.gpus[i].gpu == p.worker;
        if !known {
          return Throw(InvalidArgument);
        }
      } else if p.job >= |jobs| || p.worker >= jobs[p.job].W() {
        return Throw(InvalidArgument);
      }
      ghost var before := ctx.View();
      var scheduled := ctx.Schedule(when, Critical, p);
      if scheduled.Throw? {
        return Throw(scheduled.error);
      }
      ghost var event := Event(when, Critical, scheduled.value, ctx.Cause(), p);
      ScheduledLive(before, event);
      ControlAdded(View(), before.Live(), ctx.now, count, results, event);
      WorkloadAdded(before.Live(), event);
      return Ok(scheduled.value);
    }

    /** `start_step` of a job that is already placed. */
    method StartStep(ctx: Simulation, j: nat, ghost count: nat, ghost results: seq<CollectiveResult>)
      returns (r: Result<()>)
      requires ctx.Valid() && ctx.lifecycle == Running && AllBut(View(), ctx.Live(), ctx.now, count, results, j)
      requires j < |jobs| && jobs[j].state.Active() && CanBegin(jobs[j], ctx.now) && Silent(ctx.Live(), j)
      modifies this`jobs, ctx`nextEventId, ctx`idsExhausted, ctx`queue
      ensures ctx.Valid()
      ensures r.Throw? ==> r.error == OverflowError
      ensures r.Ok? ==> ctx.Valid() && AllOk(View(), ctx.Live(), ctx.now, count, results)
      ensures r.Ok? ==> OnlyWorkload(old(ctx.Live()), ctx.Live()) && OnlyJob(old(jobs), jobs, j) && Weight(jobs[j]) == 0
      ensures r.Ok? ==> jobs[j].state.Active() && jobs[j].step == old(jobs)[j].step && jobs[j].completedBuckets == 0
    {
      hide EngineOk, Engine.Live, AllBut, AllOk, CanBegin, Silent, RowsScheduled, Weight, OnlyWorkload;
      CanBeginFacts(jobs[j], ctx.now);
      ghost var s, live := View(), ctx.Live();
      var rows := ScheduleRows(ctx, j, jobs[j]);
      if rows.Throw? {
        return Throw(OverflowError);
      }
      BeginKeeps(s, live, ctx.now, count, results, j, rows.value, ctx.Live());
      RowsAreMine(j, jobs[j], rows.value, ctx.now, live, ctx.Live());
      WeightBegun(jobs[j], rows.value, ctx.now);
      jobs := jobs[j := Begun(jobs[j], rows.value, ctx.now)];
      return Ok(());
    }

    /** `assignments_.erase` for every worker. */
    method Unassign(workers: seq<nat>)
      modifies this`assignments
      ensures Unassigned(old(assignments), assignments, workers)
    {
      for w := 0 to |workers|
        invariant Unassigned(old(assignments), assignments, workers[..w])
      {
        assert workers[..w + 1] == workers[..w] + [workers[w]];
        assignments := assignments - {workers[w]};
      }
      assert workers[..|workers|] == workers;
    }

    /** `finish`: whatever the job still waits for or owns is given up, and its GPU time is settled. */
    method Finish(ctx: Simulation, transport: TransportRuntime, ring: RingExecutor, j: nat, state: State,
                  ghost consumed: seq<Completion>, ghost results: seq<CollectiveResult>)
      returns (r: Result<()>)
      requires Lower(ctx, transport, ring, consumed)
      requires AllBut(View(), ctx.Live(), ctx.now, |ring.records|, results, j) && Healthy(View().view, Some(j))
      requires j < |jobs| && Finishable(jobs[j], state, ctx.now)
      modifies this`jobs, this`assignments, this`admissionPending, this`completed, this`open, inventory
      modifies ring`records, ring`courses, ctx`cancelledIds, ctx`cancelledEvents, ctx`everCancelled
      ensures ctx.Valid()
      ensures r.Throw? ==> r.error == OverflowError
      ensures r.Ok? ==> Lower(ctx, transport, ring, consumed) && |ring.records| == |old(ring.records)|
      ensures r.Ok? ==> AllOk(View(), ctx.Live(), ctx.now, |ring.records|, results) && Healthy(View().view, None)
      ensures r.Ok? ==> OnlyWorkload(old(ctx.Live()), ctx.Live()) && OnlyJob(old(jobs), jobs, j)
      ensures r.Ok? ==> jobs[j].state == state && EndsOnly(old(jobs)[j], jobs[j])
      ensures r.Ok? ==> collectives == old(collectives)
                        && admissionPending == (old(admissionPending) || inventory != null)
      ensures r.Ok? && !old(jobs)[j].state.Active() ==> open == old(open) && View().view == old(View()).view
    {
      hide EngineOk, Engine.Live, AllBut, AllOk, Lower, OnlyWorkload, Healthy, Inspectable, JobEventsOk, AllAwaited,
           OnlyMine, Silent, StepCompute, EndedOk, Finishable;
      LowerValid(ctx, transport, ring, consumed);
      ghost var live := ctx.Live();
      FinishFacts(View(), live, ctx.now, |ring.records|, results, j, state);
      var compute := SettleCompute(j, state, ctx.now, live, |ring.records|, results);
      if compute.Throw? {
        return Throw(OverflowError);
      }
      GiveUp(ctx, transport, ring, j, jobs[j], consumed);
      LowerValid(ctx, transport, ring, consumed);
      MineIsWorkload(live, ctx.Live(), j);
      r := RecordEnd(j, state, compute.value, ctx.now, live, ctx.Live(), |ring.records|, results);
    }

    /** What a job that ends has computed. */
    method SettleCompute(j: nat, state: State, now: nat, ghost live: EventTable, ghost count: nat,
                         ghost results: seq<CollectiveResult>)
      returns (r: Result<nat>)
      requires AllBut(View(), live, now, count, results, j) && j < |jobs| && Finishable(jobs[j], state, now)
      ensures r.Throw? ==> r.error == OverflowError
      ensures r.Ok? ==> EndedOk(Ended(jobs[j], state, r.value, now))
    {
      hide AllBut, Inspectable, JobEventsOk, AllAwaited, StepCompute, EndedOk, Finishable, Accounts;
      var job := jobs[j];
      FinishFacts(View(), live, now, count, results, j, state);
      if state != State.Succeeded && job.placed {
        var snapshot := Inspect(j, job, now, now);
        if snapshot.Throw? {
          return Throw(OverflowError);
        }
        return Ok(snapshot.value.computeGpu);
      }
      return Ok(job.computeGpu);
    }

    /** The rest of `finish`: GPUs are given back and the job's record is closed. */
    method RecordEnd(j: nat, state: State, compute: nat, now: nat, ghost live: EventTable, ghost live': EventTable,
                     ghost count: nat, ghost results: seq<CollectiveResult>)
      returns (r: Result<()>)
      requires AllBut(View(), live, now, count, results, j) && Healthy(View().view, Some(j))
      requires j < |jobs| && Finishable(jobs[j], state, now) && EndedOk(Ended(jobs[j], state, compute, now))
      requires OnlyMine(live, live', j) && Silent(live', j)
      modifies this`jobs, this`assignments, this`admissionPending, this`completed, this`open, inventory
      ensures r.Throw? ==> r.error == OverflowError
      ensures r.Ok? ==> AllOk(View(), live', now, count, results) && Healthy(View().view, None)
      ensures r.Ok? ==> OnlyJob(old(jobs), jobs, j) && jobs[j].state == state && EndsOnly(old(jobs)[j], jobs[j])
      ensures r.Ok? ==> admissionPending == (old(admissionPending) || inventory != null)
      ensures r.Ok? && !old(jobs)[j].state.Active() ==> open == old(open) && View().view == old(View()).view
    {
      hide AllBut, AllOk, Healthy, Inspectable, JobEventsOk, AllAwaited, OnlyMine, Silent, StepCompute, EndedOk,
           Unassigned, Released, Finishable, Everyone, Accounts;
      ghost var s := View();
      var job := jobs[j];
      FinishFacts(s, live, now, count, results, j, state);
      Disown(j, job);
      var ended := Ended(job, state, compute, now);
      EndKeeps(s, live, now, count, results, j, ended, assignments, live');
      jobs := jobs[j := ended];
      if job.state.Active() {
        open := Everyone(|jobs|);
      }
      assert View() == WithEnded(s, j, ended, assignments);
      r := Publish(j, ended, now);
    }

    /** The snapshot of a job that has ended joins the completed ones. */
    method Publish(j: nat, ended: Job, now: nat) returns (r: Result<()>)
      requires EndedOk(ended)
      modifies this`completed
      ensures r.Throw? ==> r.error == OverflowError
      ensures r.Ok? ==> |completed| == |old(completed)| + 1 && completed[..|old(completed)|] == old(completed)
      ensures r.Ok? ==> completed[|old(completed)|].id == j
                        && Accounts(completed[|old(completed)|], ended, EndOf(ended, now))
    {
      hide EndedOk, Inspectable, Accounts;
      EndedInspectable(ended, now);
      assert !ended.state.Active() by {
        EndedState(ended);
      }
      var snapshot := Inspect(j, ended, now, now);
      if snapshot.Throw? {
        return Throw(OverflowError);
      }
      completed := completed + [snapshot.value];
      return Ok(());
    }

    /** The GPUs of a job that ends go back to the inventory. */
    method Disown(j: nat, job: Job)
      requires inventory != null ==> inventory.Valid()
      modifies this`assignments, this`admissionPending, inventory
      ensures if job.placed then Unassigned(old(assignments), assignments, job.spec.workers)
              else assignments == old(assignments)
      ensures inventory != null ==> inventory.gpus == Released(old(inventory.gpus), j)
      ensures admissionPending == (old(admissionPending) || inventory != null)
    {
      if job.placed {
        Unassign(job.spec.workers);
      }
      if inventory != null {
        inventory.Release(j);
        admissionPending := true;
      }
    }

    /** `start_collective`: the next bucket goes out once every worker has it ready. */
    method StartCollective(ctx: Simulation, transport: TransportRuntime, ring: RingExecutor, j: nat,
                           ghost consumed: seq<Completion>, ghost results: seq<CollectiveResult>)
      returns (r: Result<()>)
      requires Lower(ctx, transport, ring, consumed) && results <= ring.taken + ring.completed
      requires AllBut(View(), ctx.Live(), ctx.now, |ring.records|, results, j)
      requires j < |jobs| && StepOk(jobs[j]) && ClockOk(jobs[j], ctx.now) && (jobs[j].active.Some? ==> Settled(jobs[j]))
      modifies this`jobs, this`collectives
      modifies ring`records, ring`courses, ring`transfers, ring`locals, ring`ranks, ring`nextFlow, ring`completed,
               ring`timeline, ring`participantEntries
      modifies transport`chunks, transport`transfers, transport`routeEntries, transport`chunkIds,
               transport`transferIds, transport`submitted
      modifies ctx`nextEventId, ctx`idsExhausted, ctx`queue
      ensures ctx.Valid()
      ensures r.Throw? ==> r.error != LogicError
      ensures r.Ok? ==> Lower(ctx, transport, ring, consumed) && old(ring.completed) <= ring.completed
      ensures r.Ok? ==> AllOk(View(), ctx.Live(), ctx.now, |ring.records|, results)
      ensures r.Ok? ==> OnlyJob(old(jobs), jobs, j) && Proceeded(old(jobs)[j], jobs[j], |old(ring.records)|)
    {
      hide EngineOk, Engine.Live, AllBut, AllOk, Lower, OnlyWorkload, StepOk, ClockOk, Settled, SameOutside, OnlyOthers;
      LowerValid(ctx, transport, ring, consumed);
      StepFacts(jobs[j]);
      var job := jobs[j];
      if job.active.Some? || job.ready[job.completedBuckets] != job.W() {
        NotYetReady(View(), ctx.Live(), ctx.now, |ring.records|, results, j);
        return Ok(());
      }
      BucketStarts(job.spec, job.completedBuckets);
      var bytes := BucketBytes(job.spec, job.completedBuckets);
      r := Launch(ctx, transport, ring, j, CollectiveRequest(job.spec.workers, bytes, job.spec.chunkBytes), consumed,
                  results);
    }

    method Launch(ctx: Simulation, transport: TransportRuntime, ring: RingExecutor, j: nat, request: CollectiveRequest,
                  ghost consumed: seq<Completion>, ghost results: seq<CollectiveResult>)
      returns (r: Result<()>)
      requires Lower(ctx, transport, ring, consumed) && results <= ring.taken + ring.completed
      requires AllBut(View(), ctx.Live(), ctx.now, |ring.records|, results, j)
      requires j < |jobs| && StepOk(jobs[j]) && ClockOk(jobs[j], ctx.now) && jobs[j].active == None
      requires jobs[j].ready[jobs[j].completedBuckets] == jobs[j].W()
      modifies this`jobs, this`collectives
      modifies ring`records, ring`courses, ring`transfers, ring`locals, ring`ranks, ring`nextFlow, ring`completed,
               ring`timeline, ring`participantEntries
      modifies transport`chunks, transport`transfers, transport`routeEntries, transport`chunkIds,
               transport`transferIds, transport`submitted
      modifies ctx`nextEventId, ctx`idsExhausted, ctx`queue
      ensures ctx.Valid()
      ensures r.Throw? ==> r.error != LogicError
      ensures r.Ok? ==> Lower(ctx, transport, ring, consumed) && old(ring.completed) <= ring.completed
      ensures r.Ok? ==> AllOk(View(), ctx.Live(), ctx.now, |ring.records|, results)
      ensures r.Ok? ==> OnlyJob(old(jobs), jobs, j) && jobs[j] == WithCollective(old(jobs)[j], |old(ring.records)|)
    {
      hide AllBut, AllOk, Linked, StepOk, ClockOk, SameOutside, OnlyOthers, Simulation.Valid, Simulation.Live,
           Simulation.View, TransportRuntime.Valid, RingExecutor.Valid;
      ghost var s, live := View(), ctx.Live();
      ResultIds(ring, live, results);
      var submitted := ring.Submit(ctx, transport, request, consumed);
      if submitted.Throw? {
        return Throw(submitted.error);
      }
      OutsideIsOthers(live, ctx.Live());
      CalmOutside(s, live, ctx.now, |old(ring.records)|, results, j, ctx.Live());
      Elsewhere(s, live, ctx.now, |old(ring.records)|, results, j, ctx.Live());
      StartKeeps(s, ctx.Live(), ctx.now, |old(ring.records)|, results, j);
      jobs := jobs[j := WithCollective(jobs[j], submitted.value)];
      collectives := collectives[submitted.value := j];
      return Ok(());
    }

    /** `compute_ready`; `event` has just been taken off the queue. */
    method ComputeReadyEvent(ctx: Simulation, transport: TransportRuntime, ring: RingExecutor, event: Event,
                             ghost consumed: seq<Completion>, ghost results: seq<CollectiveResult>)
      returns (r: Result<()>)
      requires Lower(ctx, transport, ring, consumed) && results <= ring.taken + ring.completed
      requires JustPopped(event, ctx) && event.payload.kind == ComputeReady
      requires Valid(ctx.Live()[event.id := event], ctx.now, |ring.records|, results)
      modifies this`jobs, this`collectives
      modifies ring`records, ring`courses, ring`transfers, ring`locals, ring`ranks, ring`nextFlow, ring`completed,
               ring`timeline, ring`participantEntries
      modifies transport`chunks, transport`transfers, transport`routeEntries, transport`chunkIds,
               transport`transferIds, transport`submitted
      modifies ctx`nextEventId, ctx`idsExhausted, ctx`queue
      ensures ctx.Valid()
      ensures r.Throw? ==> r.error != LogicError
      ensures r.Ok? ==> Lower(ctx, transport, ring, consumed) && old(ring.completed) <= ring.completed
      ensures r.Ok? ==> Valid(ctx.Live(), ctx.now, |ring.records|, results)
      ensures r.Ok? ==> OnlyJob(old(jobs), jobs, event.payload.job)
                        && ReadyFor(old(jobs)[event.payload.job], jobs[event.payload.job], event.payload,
                                    |old(ring.records)|)
    {
      hide EngineOk, Engine.Live, AllBut, AllOk, Lower, StepOk, ClockOk, Settled, Healthy, Fires, WithFired;
      FireKeeps(View(), ctx.Live(), ctx.now, |ring.records|, results, event);
      var p := event.payload;
      var job := jobs[p.job];
      FiringFacts(job, p.worker, p.bucket);
      assert !job.state.Terminal() && !job.state.Scheduled? && !job.state.Waiting?;
      assert p.step == job.step && p.worker < |job.spec.workers| && p.bucket < job.buckets;
      assert job.events[p.worker][job.Column(p.bucket)] == Some(event.id);
      var fired := Fire(job, p.worker, p.bucket);
      jobs := jobs[p.job := fired];
      r := StartCollective(ctx, transport, ring, p.job, consumed, results);
    }

    /** The bookkeeping of `compute_ready`. */
    method Fire(job: Job, worker: nat, bucket: nat) returns (r: Job)
      requires worker < |job.events| && job.Column(bucket) < |job.events[worker]| && bucket < |job.ready|
      ensures r == WithFired(job, worker, bucket)
    {
      r := job.(events := job.events[worker := job.events[worker][job.Column(bucket) := None]]);
      if job.spec.overlap {
        r := r.(ready := r.ready[bucket := r.ready[bucket] + 1]);
      } else {
        var ready := r.ready;
        for b := 0 to |ready|
          invariant |ready| == |job.ready|
          invariant forall i :: 0 <= i < |ready| ==> ready[i] == if i < b then job.ready[i] + 1 else job.ready[i]
        {
          ready := ready[b := ready[b] + 1];
        }
        assert ready == Incremented(job.ready);
        r := r.(ready := ready);
      }
      if bucket + 1 == job.buckets {
        r := r.(computeComplete := r.computeComplete + 1);
      }
      if r.computeComplete == job.W() && r.active.Some? {
        r := r.(state := Communicating);
      }
    }

    /** Records the owner of every worker. */
    method AssignAll(workers: seq<nat>, j: nat)
      modifies this`assignments
      ensures assignments == Assigned(old(assignments), workers, j)
    {
      for w := 0 to |workers|
        invariant assignments == Assigned(old(assignments), workers[..w], j)
      {
        assert workers[..w + 1] == workers[..w] + [workers[w]];
        assignments := assignments[workers[w] := j];
      }
      assert workers[..|workers|] == workers;
    }

    /** A job is allocated its GPUs and starts its first step. */
    method PlaceJob(ctx: Simulation, j: nat, workers: seq<nat>, ghost count: nat, ghost results: seq<CollectiveResult>)
      returns (r: Result<()>)
      requires ctx.Valid() && ctx.lifecycle == Running && AllBut(View(), ctx.Live(), ctx.now, count, results, j)
      requires CanPlace(View(), ctx.now, j, workers) && Silent(ctx.Live(), j) && Healthy(View().view, None)
      requires inventory != null ==> Allocatable(inventory.gpus, j, workers) && ViewOk(inventory.gpus)
      modifies this`jobs, this`assignments, inventory, ctx`nextEventId, ctx`idsExhausted, ctx`queue
      ensures ctx.Valid()
      ensures r.Throw? ==> r.error == OverflowError
      ensures r.Ok? ==> ctx.Valid() && AllOk(View(), ctx.Live(), ctx.now, count, results) && Healthy(View().view, None)
      ensures r.Ok? ==> OnlyWorkload(old(ctx.Live()), ctx.Live()) && OnlyJob(old(jobs), jobs, j)
      ensures r.Ok? ==> Weight(jobs[j]) == 0 && jobs[j].state.Active()
    {
      hide EngineOk, Engine.Live, AllBut, AllOk, Healthy, Silent, RowsScheduled, Weight, OnlyWorkload, IdleOk,
           Candidate, Distinct, Assigned, Owned, Allocatable;
      ghost var s, live := View(), ctx.Live();
      PlaceFacts(s, ctx.now, j, workers);
      if inventory != null {
        var granted := inventory.Allocate(j, workers);
        assert granted.Ok?;
        OwnedHealthy(s.view.value, workers, j);
      }
      var job := jobs[j].(spec := jobs[j].spec.(workers := workers), placed := true, allocatedAt := Some(ctx.now));
      AssignAll(workers, j);
      var rows := ScheduleRows(ctx, j, job);
      if rows.Throw? {
        return Throw(OverflowError);
      }
      PlaceKeeps(s, live, ctx.now, count, results, j, workers, rows.value, ctx.Live());
      RowsAreMine(j, job, rows.value, ctx.now, live, ctx.Live());
      WeightBegun(job, rows.value, ctx.now);
      jobs := jobs[j := Begun(job, rows.value, ctx.now)];
      assert View() == WithPlaced(s, ctx.now, j, workers, rows.value);
      return Ok(());
    }

    /** Whether some worker is assigned already. */
    method Conflicts(workers: seq<nat>) returns (conflict: bool)
      ensures conflict <==> exists w :: 0 <= w < |workers| && workers[w] in assignments
    {
      for w := 0 to |workers|
        invariant forall i :: 0 <= i < w ==> workers[i] !in assignments
      {
        if workers[w] in assignments {
          return true;
        }
      }
      return false;
    }

    /** `arrive`: with a scheduler the job waits for GPUs, without one it takes those it names, if they are free. */
    method ArrivalEvent(ctx: Simulation, transport: TransportRuntime, ring: RingExecutor, event: Event,
                        ghost consumed: seq<Completion>, ghost results: seq<CollectiveResult>)
      returns (r: Result<()>)
      requires Lower(ctx, transport, ring, consumed)
      requires JustPopped(event, ctx) && event.payload.kind == Arrival
      requires Valid(ctx.Live()[event.id := event], ctx.now, |ring.records|, results)
      modifies this`jobs, this`assignments, this`admissionPending, this`completed, this`open, inventory
      modifies ring`records, ring`courses, ctx`nextEventId, ctx`idsExhausted, ctx`queue, ctx`cancelledIds,
               ctx`cancelledEvents, ctx`everCancelled
      ensures ctx.Valid()
      ensures r.Throw? ==> r.error != LogicError
      ensures r.Ok? ==> Lower(ctx, transport, ring, consumed) && |ring.records| == |old(ring.records)|
      ensures r.Ok? ==> Valid(ctx.Live(), ctx.now, |ring.records|, results)
      ensures r.Ok? ==> OnlyJob(old(jobs), jobs, event.payload.job)
      ensures r.Ok? ==> var state := jobs[event.payload.job].state;
                        if inventory != null then state.Waiting?
                        else if Taken(old(assignments), old(jobs)[event.payload.job].spec.workers) then
                          state == State.Failed
                        else state.Active()
    {
      hide EngineOk, Engine.Live, AllBut, AllOk, Lower, Healthy, IdleOk, Silent, Everyone, Finishable, Weight;
      LowerValid(ctx, transport, ring, consumed);
      ArrivalKeeps(View(), ctx.Live(), ctx.now, |ring.records|, results, event);
      var j := event.payload.job;
      assert !jobs[j].state.Terminal() && jobs[j].arrivalEvent == Some(event.id);
      jobs := jobs[j := jobs[j].(arrivalEvent := None)];
      if inventory != null {
        WaitKeeps(View(), ctx.Live(), ctx.now, |ring.records|, results, j);
        jobs := jobs[j := jobs[j].(state := State.Waiting)];
        admissionPending := true;
        open := Everyone(|jobs|);
        return Ok(());
      }
      var conflict := Conflicts(jobs[j].spec.workers);
      if conflict {
        IdleFinishable(jobs[j], ctx.now);
        HealthyBut(View().view, j);
        r := Finish(ctx, transport, ring, j, State.Failed, consumed, results);
        return;
      }
      r := TakeNamed(ctx, transport, ring, j, consumed, results);
    }

    /** The named GPUs are free: the job takes them. */
    method TakeNamed(ctx: Simulation, transport: TransportRuntime, ring: RingExecutor, j: nat,
                     ghost consumed: seq<Completion>, ghost results: seq<CollectiveResult>)
      returns (r: Result<()>)
      requires Lower(ctx, transport, ring, consumed) && inventory == null
      requires AllBut(View(), ctx.Live(), ctx.now, |ring.records|, results, j) && Silent(ctx.Live(), j)
      requires j < |jobs| && IdleOk(jobs[j], ctx.now) && jobs[j].arrivalEvent == None && jobs[j].spec.arrival <= ctx.now
      requires forall w :: 0 <= w < |jobs[j].spec.workers| ==> jobs[j].spec.workers[w] !in assignments
      modifies this`jobs, this`assignments, ctx`nextEventId, ctx`idsExhausted, ctx`queue
      ensures ctx.Valid()
      ensures r.Throw? ==> r.error == OverflowError
      ensures r.Ok? ==> Lower(ctx, transport, ring, consumed) && Valid(ctx.Live(), ctx.now, |ring.records|, results)
      ensures r.Ok? ==> OnlyJob(old(jobs), jobs, j) && jobs[j].state.Active()
    {
      hide EngineOk, Engine.Live, AllBut, AllOk, FabricOk, RingOk, Linked, Healthy, Silent, OnlyWorkload, Weight;
      ghost var live := ctx.Live();
      NamedPlaceable(View(), live, ctx.now, |ring.records|, results, j);
      hide CanPlace;
      HealthyNone(View().view);
      r := PlaceJob(ctx, j, jobs[j].spec.workers, |ring.records|, results);
      if r.Ok? {
        LowerFrame(transport.View(), ring.View(), live, ctx.now, ctx.Live());
      }
    }

    /**
     `gpu_state`: a GPU that fails takes the job that owns it along, and either way waiting jobs get another
     chance.
     */
    method GpuStateEvent(ctx: Simulation, transport: TransportRuntime, ring: RingExecutor, event: Event,
                         ghost consumed: seq<Completion>, ghost results: seq<CollectiveResult>)
      returns (r: Result<()>)
      requires Lower(ctx, transport, ring, consumed)
      requires JustPopped(event, ctx) && (event.payload.kind == GpuDown || event.payload.kind == GpuUp)
      requires Valid(ctx.Live()[event.id := event], ctx.now, |ring.records|, results)
      modifies this`jobs, this`assignments, this`admissionPending, this`completed, this`open, inventory
      modifies ring`records, ring`courses, ctx`cancelledIds, ctx`cancelledEvents, ctx`everCancelled
      ensures ctx.Valid()
      ensures r.Throw? ==> r.error != LogicError
      ensures r.Ok? ==> Lower(ctx, transport, ring, consumed) && |ring.records| == |old(ring.records)|
      ensures r.Ok? ==> Valid(ctx.Live(), ctx.now, |ring.records|, results) && admissionPending
    {
      hide EngineOk, Engine.Live, AllBut, AllOk, Lower, Healthy, Everyone, Finishable, OnlyWorkload, WithHealth;
      LowerValid(ctx, transport, ring, consumed);
      ghost var s := View();
      ControlKeeps(s, ctx.Live(), ctx.now, |ring.records|, results, event);
      assert inventory != null;
      ViewGpus(s, ctx.Live(), ctx.now, |ring.records|, results);
      var up := event.payload.kind == GpuUp;
      var owner := inventory.SetHealth(event.payload.worker, up);
      assert owner.Ok?;
      HealthKeeps(s, ctx.Live(), ctx.now, |ring.records|, results, event.payload.worker, up);
      HealthSet(s.view.value, event.payload.worker, up, owner.value);
      if owner.value.Some? && !up {
        OwnerFinishable(View(), ctx.Live(), ctx.now, |ring.records|, results, event.payload.worker, owner.value.value);
        r := Finish(ctx, transport, ring, owner.value.value, State.Failed, consumed, results);
        if r.Throw? {
          return;
        }
        AdmissionOpens(View(), ctx.Live(), ctx.now, |ring.records|, results);
      }
      open := Everyone(|jobs|);
      admissionPending := true;
      return Ok(());
    }

    /** `handle` of a workload event; `event` has just been taken off the queue. */
    method HandleEvent(ctx: Simulation, transport: TransportRuntime, ring: RingExecutor, event: Event,
                       ghost consumed: seq<Completion>, ghost results: seq<CollectiveResult>)
      returns (r: Result<()>)
      requires Lower(ctx, transport, ring, consumed) && results <= ring.taken + ring.completed
      requires JustPopped(event, ctx) && Valid(ctx.Live()[event.id := event], ctx.now, |ring.records|, results)
      modifies this`jobs, this`assignments, this`collectives, this`admissionPending, this`completed, this`open,
               inventory
      modifies ring`records, ring`courses, ring`transfers, ring`locals, ring`ranks, ring`nextFlow, ring`completed,
               ring`timeline, ring`participantEntries
      modifies transport`chunks, transport`transfers, transport`routeEntries, transport`chunkIds,
               transport`transferIds, transport`submitted
      modifies ctx`nextEventId, ctx`idsExhausted, ctx`queue, ctx`cancelledIds, ctx`cancelledEvents, ctx`everCancelled
      ensures ctx.Valid()
      ensures r.Throw? ==> r.error != LogicError
      ensures r.Ok? ==> Lower(ctx, transport, ring, consumed) && old(ring.completed) <= ring.completed
      ensures r.Ok? ==> Valid(ctx.Live(), ctx.now, |ring.records|, results)
    {
      hide EngineOk, Engine.Live, AllOk, Lower, Healthy, Everyone, Finishable, OnlyWorkload;
      match event.payload.kind {
        case GpuDown =>
          r := GpuStateEvent(ctx, transport, ring, event, consumed, results);
        case GpuUp =>
          r := GpuStateEvent(ctx, transport, ring, event, consumed, results);
        case Arrival =>
          r := ArrivalEvent(ctx, transport, ring, event, consumed, results);
        case ComputeReady =>
          r := ComputeReadyEvent(ctx, transport, ring, event, consumed, results);
        case CancelJob =>
          r := EndByControl(ctx, transport, ring, event, State.Cancelled, consumed, results);
        case WorkerFailure =>
          r := EndByControl(ctx, transport, ring, event, State.Failed, consumed, results);
      }
    }

    /** A cancellation or a worker failure ends a job that has not ended yet. */
    method EndByControl(ctx: Simulation, transport: TransportRuntime, ring: RingExecutor, event: Event, state: State,
                        ghost consumed: seq<Completion>, ghost results: seq<CollectiveResult>)
      returns (r: Result<()>)
      requires Lower(ctx, transport, ring, consumed)
      requires JustPopped(event, ctx) && (event.payload.kind == CancelJob || event.payload.kind == WorkerFailure)
      requires state == State.Failed || state == State.Cancelled
      requires Valid(ctx.Live()[event.id := event], ctx.now, |ring.records|, results)
      modifies this`jobs, this`assignments, this`admissionPending, this`completed, this`open, inventory
      modifies ring`records, ring`courses, ctx`cancelledIds, ctx`cancelledEvents, ctx`everCancelled
      ensures ctx.Valid()
      ensures r.Throw? ==> r.error == OverflowError
      ensures r.Ok? ==> Lower(ctx, transport, ring, consumed) && |ring.records| == |old(ring.records)|
      ensures r.Ok? ==> Valid(ctx.Live(), ctx.now, |ring.records|, results)
    {
      hide EngineOk, Engine.Live, AllBut, AllOk, Lower, Healthy, Everyone, Finishable, OnlyWorkload, JobOk;
      LowerValid(ctx, transport, ring, consumed);
      ControlKeeps(View(), ctx.Live(), ctx.now, |ring.records|, results, event);
      var j := event.payload.job;
      assert j < |jobs| && event.payload.worker < jobs[j].W();
      if jobs[j].state.Terminal() {
        return Ok(());
      }
      Part(View(), ctx.Live(), ctx.now, |ring.records|, results, j);
      JobFinishable(jobs[j], ctx.now);
      HealthyBut(View().view, j);
      r := Finish(ctx, transport, ring, j, state, consumed, results);
    }

    /** `handle` of a collective's result: the next one the executor reported. */
    method HandleResult(ctx: Simulation, transport: TransportRuntime, ring: RingExecutor, result: CollectiveResult,
                        ghost consumed: seq<Completion>, ghost results: seq<CollectiveResult>)
      returns (r: Result<()>)
      requires Lower(ctx, transport, ring, consumed) && results + [result] <= ring.taken + ring.completed
      requires Valid(ctx.Live(), ctx.now, |ring.records|, results)
      modifies this`jobs, this`assignments, this`collectives, this`admissionPending, this`completed, this`open,
               inventory
      modifies ring`records, ring`courses, ring`transfers, ring`locals, ring`ranks, ring`nextFlow, ring`completed,
               ring`timeline, ring`participantEntries
      modifies transport`chunks, transport`transfers, transport`routeEntries, transport`chunkIds,
               transport`transferIds, transport`submitted
      modifies ctx`nextEventId, ctx`idsExhausted, ctx`queue, ctx`cancelledIds, ctx`cancelledEvents, ctx`everCancelled
      ensures ctx.Valid()
      ensures r.Throw? ==> r.error != LogicError
      ensures r.Ok? ==> Lower(ctx, transport, ring, consumed) && old(ring.completed) <= ring.completed
      ensures r.Ok? ==> Valid(ctx.Live(), ctx.now, |ring.records|, results + [result])
      ensures r.Ok? ==> Load(jobs) < old(Load(jobs))
      ensures r.Ok? ==> result.id in old(collectives)
                        && OnlyJob(old(jobs), jobs, old(collectives)[result.id])
                        && Took(old(jobs)[old(collectives)[result.id]], jobs[old(collectives)[result.id]], result)
    {
      hide EngineOk, Engine.Live, AllBut, AllOk, FabricOk, RingOk, Linked, Healthy, Load, Weight, JobOk;
      ResultFinds(ring.View(), ctx.Live(), View(), ctx.now, results, result);
      assert result.id in collectives;
      var j := collectives[result.id];
      hide Lower;
      if jobs[j].state.Terminal() {
        LateResultKeeps(View(), ctx.Live(), ctx.now, |ring.records|, results, result);
        EndedWeight(jobs[j].(active := None));
        LoadDrops(jobs, j, jobs[j].(active := None));
        collectives := collectives - {result.id};
        jobs := jobs[j := jobs[j].(active := None)];
        return Ok(());
      }
      if result.outcome != Phase.Succeeded {
        r := FailJob(ctx, transport, ring, j, result, consumed, results);
      } else if jobs[j].completedBuckets + 1 == jobs[j].buckets {
        r := CompleteStep(ctx, transport, ring, j, result, consumed, results);
      } else {
        r := NextBucket(ctx, transport, ring, j, result, consumed, results);
      }
    }

    /** The collective of an active job failed, and so does the job. */
    method FailJob(ctx: Simulation, transport: TransportRuntime, ring: RingExecutor, j: nat, result: CollectiveResult,
                   ghost consumed: seq<Completion>, ghost results: seq<CollectiveResult>)
      returns (r: Result<()>)
      requires Lower(ctx, transport, ring, consumed) && Valid(ctx.Live(), ctx.now, |ring.records|, results)
      requires Expects(View(), j, result, ctx.now) && result.outcome != Phase.Succeeded
      modifies this`jobs, this`assignments, this`collectives, this`admissionPending, this`completed, this`open,
               inventory
      modifies ring`records, ring`courses, ctx`cancelledIds, ctx`cancelledEvents, ctx`everCancelled
      ensures ctx.Valid()
      ensures r.Throw? ==> r.error == OverflowError
      ensures r.Ok? ==> Lower(ctx, transport, ring, consumed) && |ring.records| == |old(ring.records)|
      ensures r.Ok? ==> Valid(ctx.Live(), ctx.now, |ring.records|, results + [result]) && Load(jobs) < old(Load(jobs))
      ensures r.Ok? ==> OnlyJob(old(jobs), jobs, j) && Took(old(jobs)[j], jobs[j], result)
    {
      hide EngineOk, Engine.Live, AllBut, AllOk, Lower, Healthy, Load, Weight, JobOk, StepOk, ClockOk, OnlyWorkload,
           Finishable;
      ghost var before := jobs;
      FailedResultKeeps(View(), ctx.Live(), ctx.now, |ring.records|, results, result);
      WeightPositive(jobs[j], ctx.now);
      collectives := collectives - {result.id};
      jobs := jobs[j := jobs[j].(active := None)];
      StepFinishable(jobs[j], ctx.now);
      HealthyBut(View().view, j);
      r := Finish(ctx, transport, ring, j, State.Failed, consumed, results + [result]);
      if r.Ok? {
        EndedWeight(jobs[j]);
        assert jobs == before[j := jobs[j]];
        LoadDrops(before, j, jobs[j]);
      }
    }

    /** The last bucket of a step is done: the next step starts, or the job has succeeded. */
    method CompleteStep(ctx: Simulation, transport: TransportRuntime, ring: RingExecutor, j: nat,
                        result: CollectiveResult,
                        ghost consumed: seq<Completion>, ghost results: seq<CollectiveResult>)
      returns (r: Result<()>)
      requires Lower(ctx, transport, ring, consumed) && Valid(ctx.Live(), ctx.now, |ring.records|, results)
      requires Expects(View(), j, result, ctx.now) && jobs[j].completedBuckets + 1 == jobs[j].buckets
      requires result.outcome == Phase.Succeeded
      modifies this`jobs, this`assignments, this`collectives, this`admissionPending, this`completed, this`open,
               inventory
      modifies ring`records, ring`courses, ctx`nextEventId, ctx`idsExhausted, ctx`queue, ctx`cancelledIds,
               ctx`cancelledEvents, ctx`everCancelled
      ensures ctx.Valid()
      ensures r.Throw? ==> r.error == OverflowError
      ensures r.Ok? ==> Lower(ctx, transport, ring, consumed) && |ring.records| == |old(ring.records)|
      ensures r.Ok? ==> Valid(ctx.Live(), ctx.now, |ring.records|, results + [result]) && Load(jobs) < old(Load(jobs))
      ensures r.Ok? ==> OnlyJob(old(jobs), jobs, j) && Took(old(jobs)[j], jobs[j], result)
    {
      hide EngineOk, Engine.Live, AllBut, AllOk, Lower, Healthy, Load, Weight, JobOk, StepOk, ClockOk, OnlyWorkload,
           Finishable, Silent, CanBegin, SumOf, WithStepDone, Took;
      ghost var before := jobs;
      StepKeeps(View(), ctx.Live(), ctx.now, |ring.records|, results, result);
      WeightPositive(jobs[j], ctx.now);
      StepDoneFacts(jobs[j], ctx.now);
      collectives := collectives - {result.id};
      jobs := jobs[j := WithStepDone(jobs[j])];
      if jobs[j].step == jobs[j].spec.steps {
        HealthyBut(View().view, j);
        r := Finish(ctx, transport, ring, j, State.Succeeded, consumed, results + [result]);
        if r.Ok? {
          EndedWeight(jobs[j]);
        }
      } else {
        r := NextStep(ctx, transport, ring, j, consumed, results + [result]);
      }
      if r.Ok? {
        assert jobs == before[j := jobs[j]];
        LoadDrops(before, j, jobs[j]);
        TookStep(before[j], jobs[j], result);
      }
    }

    method NextStep(ctx: Simulation, transport: TransportRuntime, ring: RingExecutor, j: nat,
                    ghost consumed: seq<Completion>, ghost results: seq<CollectiveResult>)
      returns (r: Result<()>)
      requires Lower(ctx, transport, ring, consumed) && AllBut(View(), ctx.Live(), ctx.now, |ring.records|, results, j)
      requires j < |jobs| && jobs[j].state.Active() && CanBegin(jobs[j], ctx.now) && Silent(ctx.Live(), j)
      modifies this`jobs, ctx`nextEventId, ctx`idsExhausted, ctx`queue
      ensures ctx.Valid()
      ensures r.Throw? ==> r.error == OverflowError
      ensures r.Ok? ==> Lower(ctx, transport, ring, consumed)
                        && AllOk(View(), ctx.Live(), ctx.now, |ring.records|, results)
      ensures r.Ok? ==> OnlyJob(old(jobs), jobs, j) && Weight(jobs[j]) == 0
      ensures r.Ok? ==> jobs[j].state.Active() && jobs[j].step == old(jobs)[j].step && jobs[j].completedBuckets == 0
    {
      hide EngineOk, Engine.Live, AllBut, AllOk, FabricOk, RingOk, Linked, Weight, OnlyWorkload, Silent, CanBegin;
      ghost var live := ctx.Live();
      r := StartStep(ctx, j, |ring.records|, results);
      if r.Ok? {
        LowerFrame(transport.View(), ring.View(), live, ctx.now, ctx.Live());
      }
    }

    /** A bucket is done: the next one goes out if it is ready. */
    method NextBucket(ctx: Simulation, transport: TransportRuntime, ring: RingExecutor, j: nat,
                      result: CollectiveResult,
                      ghost consumed: seq<Completion>, ghost results: seq<CollectiveResult>)
      returns (r: Result<()>)
      requires Lower(ctx, transport, ring, consumed) && Valid(ctx.Live(), ctx.now, |ring.records|, results)
      requires results + [result] <= ring.taken + ring.completed
      requires Expects(View(), j, result, ctx.now) && jobs[j].completedBuckets + 1 != jobs[j].buckets
      requires result.outcome == Phase.Succeeded
      modifies this`jobs, this`collectives
      modifies ring`records, ring`courses, ring`transfers, ring`locals, ring`ranks, ring`nextFlow, ring`completed,
               ring`timeline, ring`participantEntries
      modifies transport`chunks, transport`transfers, transport`routeEntries, transport`chunkIds,
               transport`transferIds, transport`submitted
      modifies ctx`nextEventId, ctx`idsExhausted, ctx`queue
      ensures ctx.Valid()
      ensures r.Throw? ==> r.error != LogicError
      ensures r.Ok? ==> Lower(ctx, transport, ring, consumed) && old(ring.completed) <= ring.completed
      ensures r.Ok? ==> Valid(ctx.Live(), ctx.now, |ring.records|, results + [result]) && Load(jobs) < old(Load(jobs))
      ensures r.Ok? ==> OnlyJob(old(jobs), jobs, j) && Took(old(jobs)[j], jobs[j], result)
    {
      hide EngineOk, Engine.Live, AllBut, AllOk, Lower, Healthy, Load, Weight, JobOk, StepOk, ClockOk, Settled,
           WithBucketDone, WithCollective, Took, Simulation.Valid, Simulation.View;
      ghost var before, c := jobs, |ring.records|;
      BucketsLeft(jobs[j], ctx.now);
      BucketKeeps(View(), ctx.Live(), ctx.now, |ring.records|, results, result);
      WeightBucketDone(jobs[j], Some(c), ctx.now);
      collectives := collectives - {result.id};
      jobs := jobs[j := WithBucketDone(jobs[j])];
      r := StartCollective(ctx, transport, ring, j, consumed, results + [result]);
      if r.Ok? {
        assert jobs == before[j := jobs[j]];
        LoadDrops(before, j, jobs[j]);
        TookBucket(before[j], jobs[j], c, result);
      }
    }

    /** `admit`: one waiting job is placed, rejected or left waiting because nothing fits. */
    method Admit(ctx: Simulation, transport: TransportRuntime, ring: RingExecutor, j: nat,
                 ghost consumed: seq<Completion>, ghost results: seq<CollectiveResult>)
      returns (r: Result<()>)
      requires Lower(ctx, transport, ring, consumed) && inventory != null
      requires AllOk(View(), ctx.Live(), ctx.now, |ring.records|, results) && Healthy(View().view, None)
      requires j < |jobs| && jobs[j].state.Waiting?
      modifies this`jobs, this`assignments, this`admissionPending, this`completed, this`open, inventory
      modifies ring`records, ring`courses, ctx`nextEventId, ctx`idsExhausted, ctx`queue, ctx`cancelledIds,
               ctx`cancelledEvents, ctx`everCancelled
      ensures ctx.Valid()
      ensures r.Throw? ==> r.error == OverflowError
      ensures r.Ok? ==> Lower(ctx, transport, ring, consumed) && |ring.records| == |old(ring.records)|
      ensures r.Ok? ==> AllOk(View(), ctx.Live(), ctx.now, |ring.records|, results) && Healthy(View().view, None)
      ensures r.Ok? ==> OnlyJob(old(jobs), jobs, j) && Weight(jobs[j]) == 0 && open == old(open) - {j}
      ensures r.Ok? ==> Decided(RequestOf(j, old(jobs)[j].spec), old(inventory.gpus), jobs[j].state)
    {
      hide EngineOk, Engine.Live, AllBut, AllOk, Lower, Healthy, Weight, OnlyWorkload, Finishable, Misfit, Available,
           Candidate, Preferred, JobOk, Silent, CanPlace, Allocatable;
      LowerValid(ctx, transport, ring, consumed);
      ghost var s, count := View(), |ring.records|;
      ViewGpus(s, ctx.Live(), ctx.now, count, results);
      AdmitFacts(s, ctx.Live(), ctx.now, count, results, j);
      var placement := Place(policy, RequestOf(j, jobs[j].spec), inventory.gpus);
      assert placement.outcome != Outcome.Placed ==> placement.workers == [];
      match placement.outcome {
        case Rejected =>
          r := Finish(ctx, transport, ring, j, State.Failed, consumed, results);
          if r.Throw? {
            return;
          }
          EndedWeight(jobs[j]);
        case Waiting =>
          IdleWeight(jobs[j]);
          r := Ok(());
        case Placed =>
          PlacementWorks(s, ctx.Live(), ctx.now, count, results, j, placement.workers);
          r := PlaceAnd(ctx, transport, ring, j, placement.workers, consumed, results);
          if r.Throw? {
            return;
          }
      }
      Considered(View(), ctx.Live(), ctx.now, count, results, j);
      open := open - {j};
    }

    method PlaceAnd(ctx: Simulation, transport: TransportRuntime, ring: RingExecutor, j: nat, workers: seq<nat>,
                    ghost consumed: seq<Completion>, ghost results: seq<CollectiveResult>)
      returns (r: Result<()>)
      requires Lower(ctx, transport, ring, consumed) && AllBut(View(), ctx.Live(), ctx.now, |ring.records|, results, j)
      requires CanPlace(View(), ctx.now, j, workers) && Silent(ctx.Live(), j) && Healthy(View().view, None)
      requires inventory != null ==> Allocatable(inventory.gpus, j, workers) && ViewOk(inventory.gpus)
      modifies this`jobs, this`assignments, inventory, ctx`nextEventId, ctx`idsExhausted, ctx`queue
      ensures ctx.Valid()
      ensures r.Throw? ==> r.error == OverflowError
      ensures r.Ok? ==> Lower(ctx, transport, ring, consumed)
                        && AllOk(View(), ctx.Live(), ctx.now, |ring.records|, results)
      ensures r.Ok? ==> Healthy(View().view, None) && OnlyJob(old(jobs), jobs, j) && Weight(jobs[j]) == 0
                        && jobs[j].state.Active()
    {
      hide EngineOk, Engine.Live, AllBut, AllOk, FabricOk, RingOk, Linked, Weight, OnlyWorkload, Silent, CanPlace,
           Healthy, Allocatable;
      ghost var live := ctx.Live();
      r := PlaceJob(ctx, j, workers, |ring.records|, results);
      if r.Ok? {
        LowerFrame(transport.View(), ring.View(), live, ctx.now, ctx.Live());
      }
    }

    /** The waiting jobs in the order of admission: priority, then arrival, then ID. */
    method CollectWaiting() returns (waiting: seq<nat>)
      ensures forall i :: 0 <= i < |waiting| ==> waiting[i] < |jobs| && jobs[waiting[i]].state.Waiting?
      ensures forall i, k :: 0 <= i < k < |waiting| ==>
                waiting[i] != waiting[k] && !Precedes(jobs, waiting[k], waiting[i])
      ensures forall j :: 0 <= j < |jobs| && jobs[j].state.Waiting? ==> j in waiting
    {
      var found: seq<nat> := [];
      for j := 0 to |jobs|
        invariant forall i :: 0 <= i < |found| ==> found[i] < j && jobs[found[i]].state.Waiting?
        invariant forall i, k :: 0 <= i < k < |found| ==> found[i] < found[k]
        invariant forall k :: 0 <= k < j && jobs[k].state.Waiting? ==> k in found
      {
        if jobs[j].state.Waiting? {
          found := found + [j];
        }
      }
      waiting := SortWaiting(jobs, found);
    }

    /**
     `dispatch_waiting`: one pass over the waiting jobs is enough. Afterwards no waiting job could be
     placed, although a rejection during the pass asks for another one.
     */
    method DispatchWaiting(ctx: Simulation, transport: TransportRuntime, ring: RingExecutor,
                           ghost consumed: seq<Completion>, ghost results: seq<CollectiveResult>)
      returns (r: Result<()>)
      requires Lower(ctx, transport, ring, consumed) && Valid(ctx.Live(), ctx.now, |ring.records|, results)
      modifies this`jobs, this`assignments, this`admissionPending, this`completed, this`open, inventory
      modifies ring`records, ring`courses, ctx`nextEventId, ctx`idsExhausted, ctx`queue, ctx`cancelledIds,
               ctx`cancelledEvents, ctx`everCancelled
      ensures ctx.Valid()
      ensures r.Throw? ==> r.error == OverflowError
      ensures r.Ok? ==> Lower(ctx, transport, ring, consumed) && |ring.records| == |old(ring.records)|
      ensures r.Ok? ==> Valid(ctx.Live(), ctx.now, |ring.records|, results) && Load(jobs) == old(Load(jobs))
      ensures r.Ok? && inventory != null ==> !admissionPending && open == {}
    {
      hide EngineOk, Engine.Live, AllOk, Lower, Healthy, Weight, Load, Precedes, Decided, Remaining, OnlyJob;
      LowerValid(ctx, transport, ring, consumed);
      if !admissionPending || inventory == null {
        return Ok(());
      }
      admissionPending := false;
      var waiting := CollectWaiting();
      OnlyWaiting(View(), ctx.Live(), ctx.now, |ring.records|, results);
      open := WaitingJobs(jobs);
      RemainingAll(jobs, waiting);
      for i := 0 to |waiting|
        invariant Lower(ctx, transport, ring, consumed) && |ring.records| == |old(ring.records)|
                  && |jobs| == |old(jobs)|
        invariant AllOk(View(), ctx.Live(), ctx.now, |ring.records|, results) && Healthy(View().view, None)
        invariant Remaining(jobs, waiting, i, open) && Load(jobs) == old(Load(jobs))
      {
        ghost var before, left := jobs, open;
        RemainingFirst(jobs, waiting, i, open);
        r := Admit(ctx, transport, ring, waiting[i], consumed, results);
        if r.Throw? {
          return;
        }
        IdleWeight(before[waiting[i]]);
        LoadSame(before, jobs, waiting[i]);
        RemainingNext(before, jobs, waiting, i, left);
      }
      NoneRemaining(jobs, waiting, open);
      LowerValid(ctx, transport, ring, consumed);
      admissionPending := false;
      return Ok(());
    }
  }

  /** The jobs from i on still wait, and no others are open. */
  ghost predicate Remaining(jobs: seq<Job>, waiting: seq<nat>, i: nat, open: set<nat>) {
    && (forall k, l :: 0 <= k < l < |waiting| ==> waiting[k] != waiting[l])
    && (forall k :: i <= k < |waiting| ==> waiting[k] < |jobs| && jobs[waiting[k]].state.Waiting?)
    && (forall j :: j in open ==> exists k :: i <= k < |waiting| && waiting[k] == j)
  }

  lemma RemainingAll(jobs: seq<Job>, waiting: seq<nat>)
    requires forall k, l :: 0 <= k < l < |waiting| ==> waiting[k] != waiting[l]
    requires forall k :: 0 <= k < |waiting| ==> waiting[k] < |jobs| && jobs[waiting[k]].state.Waiting?
    requires forall j :: 0 <= j < |jobs| && jobs[j].state.Waiting? ==> j in waiting
    ensures Remaining(jobs, waiting, 0, WaitingJobs(jobs))
  {
  }

  lemma RemainingFirst(jobs: seq<Job>, waiting: seq<nat>, i: nat, open: set<nat>)
    requires Remaining(jobs, waiting, i, open) && i < |waiting|
    ensures waiting[i] < |jobs| && jobs[waiting[i]].state.Waiting?
  {
  }

  lemma RemainingNext(before: seq<Job>, after: seq<Job>, waiting: seq<nat>, i: nat, open: set<nat>)
    requires Remaining(before, waiting, i, open) && i < |waiting| && OnlyJob(before, after, waiting[i])
    ensures Remaining(after, waiting, i + 1, open - {waiting[i]}) && |after| == |before|
  {
  }

  lemma NoneRemaining(jobs: seq<Job>, waiting: seq<nat>, open: set<nat>)
    requires Remaining(jobs, waiting, |waiting|, open)
    ensures open == {}
  {
  }

  lemma CanBeginFacts(job: Job, now: nat)
    requires CanBegin(job, now)
    ensures job.buckets > 0 && job.W() > 0
  {
    BucketsPositive(job.spec);
  }

  lemma RowsAreMine(j: nat, job: Job, rows: seq<Row>, now: nat, live: EventTable, live': EventTable)
    requires RowsScheduled(j, job, rows, now, live, live')
    ensures OnlyWorkload(live, live')
  {
    hide RowEvent, InRows;
    MineIsWorkload(live, live', j);
  }

  /** A job may end in this state now. */
  ghost predicate Finishable(job: Job, state: State, now: nat) {
    if state == State.Succeeded then job.state.Active() && RowsOk(job) && job.placed
      && EndedOk(Ended(job, state, job.computeGpu, now))
    else state.Terminal() && (IdleOk(job, now) || (StepOk(job) && ClockOk(job, now)))
  }

  lemma EndedInspectable(job: Job, now: nat)
    requires EndedOk(job)
    ensures Inspectable(job, now)
  {
  }

  lemma EndedState(job: Job)
    requires EndedOk(job)
    ensures !job.state.Active()
  {
  }

  /** What `finish` finds. */
  lemma FinishFacts(s: Jobs, live: EventTable, now: nat, count: nat, results: seq<CollectiveResult>, j: nat,
                    state: State)
    requires AllBut(s, live, now, count, results, j) && j < |s.jobs| && Finishable(s.jobs[j], state, now)
    ensures var job := s.jobs[j];
            && !job.state.Terminal() && state.Terminal() && (job.placed <==> job.state.Active())
            && JobEventsOk(j, job, live) && AllAwaited(j, job, live) && (job.state.Active() || job.events == [])
            && (job.active.Some? ==> job.active.value < count)
            && (s.view.Some? ==> ViewOk(s.view.value))
            && (state != State.Succeeded ==> Inspectable(job, now) && (job.state.Active() ==> job.stepStarted <= now))
            && (state == State.Succeeded ==> EndedOk(Ended(job, state, job.computeGpu, now)))
            && (state != State.Succeeded && job.state.Active() ==>
                  job.stepStarted <= now
                  && EndedOk(Ended(job, state, job.computeGpu + StepCompute(job.spec.compute, now - job.stepStarted),
                                   now)))
            && (state != State.Succeeded && !job.state.Active() ==> EndedOk(Ended(job, state, job.computeGpu, now)))
            && (state != State.Succeeded && job.placed ==> job.stepStarted <= now && job.state.Active())
  {
    hide OthersOk, OwnershipOk, AdmissionOk, CalmOk, ReadyOk;
    var job := s.jobs[j];
    assert JobEventsOk(j, job, live);
    assert AllAwaited(j, job, live) by {
      forall e | e in live && Mine(j, live[e].payload) ensures Awaited(job, e, live[e].payload) {
        assert OwnedEvent(s.jobs, s.view, e, live[e].payload);
      }
    }
    assert s.view.Some? ==> ViewOk(s.view.value) by {
      ViewIsOk(s);
    }
    assert job.active.Some? ==> job.active.value < count;
    hide EventsOk, CollectivesOk, JobEventsOk, AllAwaited, StepCompute, EndedOk, SpecOk;
    if state != State.Succeeded {
      if job.state.Active() {
        EndsEarly(job, state, now);
      } else {
        EndsUnplaced(job, state, now);
      }
    }
  }

  lemma ViewIsOk(s: Jobs)
    requires OwnershipOk(s.jobs, s.assignments, s.view)
    ensures s.view.Some? ==> ViewOk(s.view.value)
  {
  }

  /** A job that ends cancels its pending events and its collective. */
  method GiveUp(ctx: Simulation, transport: TransportRuntime, ring: RingExecutor, j: nat, job: Job,
                ghost consumed: seq<Completion>)
    requires Lower(ctx, transport, ring, consumed)
    requires JobEventsOk(j, job, ctx.Live()) && AllAwaited(j, job, ctx.Live())
             && (job.state.Active() || job.events == [])
    requires job.active.Some? ==> job.active.value < |ring.records|
    modifies ring`records, ring`courses, ctx`cancelledIds, ctx`cancelledEvents, ctx`everCancelled
    ensures Lower(ctx, transport, ring, consumed) && |ring.records| == |old(ring.records)|
    ensures OnlyMine(old(ctx.Live()), ctx.Live(), j) && Silent(ctx.Live(), j)
  {
    hide EngineOk, Engine.Live, FabricOk, RingOk, OnlyWorkload, Linked, JobEventsOk, AllAwaited, OnlyMine, Silent;
    ghost var live := ctx.Live();
    CancelEvents(ctx, j, job);
    MineIsWorkload(live, ctx.Live(), j);
    LowerFrame(transport.View(), ring.View(), live, ctx.now, ctx.Live());
    if job.active.Some? {
      ring.Cancel(job.active.value, ctx.Live());
    }
  }

  /** A job moved on to its next collective, or not at all. */
  ghost predicate Proceeded(before: Job, after: Job, c: nat) {
    after == before || after == WithCollective(before, c)
  }

  lemma StepFacts(job: Job)
    requires StepOk(job)
    ensures job.completedBuckets < |job.ready| && job.spec.bucketBytes > 0
            && job.completedBuckets < BucketCount(job.spec)
    ensures job.state.Active() && !job.state.Terminal()
  {
  }

  /** A workload event that has just been taken off the queue. */
  ghost predicate JustPopped(event: Event, ctx: Simulation)
    reads ctx
  {
    event.payload.Workload? && event.id !in ctx.Live() && event.timestamp == ctx.now
  }

  lemma FiringFacts(job: Job, worker: nat, bucket: nat)
    requires Fires(job, worker, bucket)
    ensures job.state.Active() && worker < |job.spec.workers| && bucket < job.buckets
    ensures worker < |job.events| && job.Column(bucket) < |job.events[worker]| && bucket < |job.ready|
  {
  }

  lemma PlaceFacts(s: Jobs, now: nat, j: nat, workers: seq<nat>)
    requires CanPlace(s, now, j, workers)
    ensures j < |s.jobs| && s.jobs[j].buckets > 0 && s.jobs[j].W() > 0
    ensures s.view.Some? ==> Candidate(s.view.value, workers, |workers|)
  {
    BucketsPositive(s.jobs[j].spec);
  }

  lemma IdleFinishable(job: Job, now: nat)
    requires IdleOk(job, now)
    ensures Finishable(job, State.Failed, now) && Finishable(job, State.Cancelled, now)
  {
  }

  lemma JobFinishable(job: Job, now: nat)
    requires JobOk(job, now) && !job.state.Terminal()
    ensures Finishable(job, State.Failed, now) && Finishable(job, State.Cancelled, now)
  {
  }

  lemma HealthyBut(view: Option<seq<Resource>>, j: nat)
    requires Healthy(view, None)
    ensures Healthy(view, Some(j))
  {
  }

  lemma HealthyNone(view: Option<seq<Resource>>)
    requires view.None?
    ensures forall j :: Healthy(view, j)
  {
  }

  /** Without a scheduler, a job that arrives can be placed on the workers it names. */
  lemma NamedPlaceable(s: Jobs, live: EventTable, now: nat, count: nat, results: seq<CollectiveResult>, j: nat)
    requires AllBut(s, live, now, count, results, j) && j < |s.jobs| && s.view.None?
    requires IdleOk(s.jobs[j], now) && s.jobs[j].arrivalEvent == None && s.jobs[j].spec.arrival <= now
    requires forall w :: 0 <= w < |s.jobs[j].spec.workers| ==> s.jobs[j].spec.workers[w] !in s.assignments
    ensures CanPlace(s, now, j, s.jobs[j].spec.workers)
  {
    hide OthersOk, EventsOk, OwnershipOk, CollectivesOk, AdmissionOk, CalmOk;
  }

  /** The owner of a failing GPU is an active job, which can be failed. */
  lemma OwnerFinishable(s: Jobs, live: EventTable, now: nat, count: nat, results: seq<CollectiveResult>, gpu: nat,
                        owner: nat)
    requires AllOk(s, live, now, count, results) && s.view.Some? && Has(s.view.value, gpu)
    requires forall i :: 0 <= i < |s.view.value| && s.view.value[i].gpu == gpu ==> s.view.value[i].owner == Some(owner)
    ensures owner < |s.jobs| && Finishable(s.jobs[owner], State.Failed, now)
            && AllBut(s, live, now, count, results, owner)
  {
    hide JobOk, EventsOk, OwnershipOk, CollectivesOk, AdmissionOk, CalmOk, Finishable;
    var i :| 0 <= i < |s.view.value| && s.view.value[i].gpu == gpu;
    OwnerIsActive(s, s.view.value, i);
    Part(s, live, now, count, results, owner);
    JobFinishable(s.jobs[owner], now);
  }

  lemma AdmissionOpens(s: Jobs, live: EventTable, now: nat, count: nat, results: seq<CollectiveResult>)
    requires AllOk(s, live, now, count, results)
    ensures AllOk(s.(open := Everyone(|s.jobs|)), live, now, count, results)
  {
    hide JobOk, EventsOk, OwnershipOk, CollectivesOk, AdmissionOk, CalmOk;
    AdmissionDue(s.jobs, s.view, s.open, s.view);
  }

  /** The job a result is for still waits for it. */
  lemma ResultFinds(ring: Ring, live: EventTable, s: Jobs, now: nat, results: seq<CollectiveResult>,
                    result: CollectiveResult)
    requires RingOk(ring, live) && AllOk(s, live, now, |ring.courses|, results) && results + [result] <= ring.results
    ensures result.id in s.collectives && s.collectives[result.id] < |s.jobs|
    ensures var job := s.jobs[s.collectives[result.id]];
            job.active == Some(result.id) && JobOk(job, now) && (job.state.Terminal() || job.state.Active())
            && (job.state.Terminal() ==> Weight(job) == 1)
  {
    hide CoursesOk, TablesOk, LocalsOk, JobOk, EventsOk, OwnershipOk, AdmissionOk, CalmOk;
    assert ring.results[..|results|] == results && ring.results[|results|] == result;
    ResultIsAwaited(ring.courses, ring.results, |results|, s.jobs, s.collectives);
    hide CollectivesOk, ResultsOk;
    Part(s, live, now, |ring.courses|, results, s.collectives[result.id]);
    WaiterRuns(s.jobs[s.collectives[result.id]], now);
  }

  lemma WaiterRuns(job: Job, now: nat)
    requires JobOk(job, now) && job.active.Some?
    ensures job.state.Terminal() || job.state.Active()
  {
  }

  lemma LoadDrops(jobs: seq<Job>, j: nat, job: Job)
    requires j < |jobs| && Weight(job) < Weight(jobs[j])
    ensures Load(jobs[j := job]) < Load(jobs)
  {
    hide Weight, Load;
    LoadChanges(jobs, j, job);
  }

  /** Job j is active and waits for this result. */
  ghost predicate Expects(s: Jobs, j: nat, result: CollectiveResult, now: nat) {
    && result.id in s.collectives && s.collectives[result.id] == j && j < |s.jobs|
    && s.jobs[j].state.Active() && s.jobs[j].active == Some(result.id) && JobOk(s.jobs[j], now)
  }

  lemma TookBucket(a: Job, b: Job, c: nat, result: CollectiveResult)
    requires a.state.Active() && result.outcome == Phase.Succeeded && a.completedBuckets + 1 != a.buckets
    requires Proceeded(WithBucketDone(a), b, c)
    ensures Took(a, b, result)
  {
  }

  lemma TookStep(a: Job, b: Job, result: CollectiveResult)
    requires a.state.Active() && result.outcome == Phase.Succeeded && a.completedBuckets + 1 == a.buckets
    requires if WithStepDone(a).step == WithStepDone(a).spec.steps then
               b.state == State.Succeeded && EndsOnly(WithStepDone(a), b)
             else b.state.Active() && b.step == WithStepDone(a).step && b.completedBuckets == 0
    ensures Took(a, b, result)
  {
  }

  lemma EndedWeight(job: Job)
    requires job.state.Terminal() && job.active == None
    ensures Weight(job) == 0
  {
  }

  lemma StepFinishable(job: Job, now: nat)
    requires StepOk(job) && ClockOk(job, now)
    ensures Finishable(job, State.Failed, now)
  {
  }

  lemma StepDoneFacts(job: Job, now: nat)
    requires JobOk(job, now) && job.state.Active() && job.active.Some? && job.completedBuckets + 1 == job.buckets
    ensures var job' := WithStepDone(job);
            && job'.state.Active() && job'.spec == job.spec && job'.active == None && job'.step <= job.spec.steps
            && (job'.step == job.spec.steps ==> Finishable(job', State.Succeeded, now))
            && job'.computeGpu <= U64_MAX
  {
    StepRows(job, now);
    hide ReadyOk, Sum, SumOf;
    StepDone(job, now);
    Scale(job.step + 1, job.spec.steps, Sum(job.spec.compute));
    if job.step + 1 == job.spec.steps {
      EndsWell(job, now);
    }
  }

  lemma BucketsLeft(job: Job, now: nat)
    requires JobOk(job, now) && job.state.Active() && job.completedBuckets + 1 != job.buckets
    ensures job.completedBuckets + 1 < job.buckets && WithBucketDone(job).active == None
  {
  }

  // Admission order

  /** The comparison of `dispatch_waiting`. */
  predicate Precedes(jobs: seq<Job>, a: nat, b: nat) {
    a < |jobs| && b < |jobs| &&
    if jobs[a].spec.priority != jobs[b].spec.priority then jobs[a].spec.priority > jobs[b].spec.priority
    else if jobs[a].spec.arrival != jobs[b].spec.arrival then jobs[a].spec.arrival < jobs[b].spec.arrival
    else a < b
  }

  lemma PrecedesIsOrder(jobs: seq<Job>)
    ensures StrictWeakOrder((a, b) => Ranked(jobs, a, b))
  {
  }

  /** `Precedes`, extended to all numbers so that it is an order. */
  predicate Ranked(jobs: seq<Job>, a: nat, b: nat) {
    if a < |jobs| && b < |jobs| then Precedes(jobs, a, b) else if a < |jobs| then true else if b < |jobs| then false
    else a < b
  }

  method SortWaiting(jobs: seq<Job>, found: seq<nat>) returns (waiting: seq<nat>)
    requires forall i :: 0 <= i < |found| ==> found[i] < |jobs|
    requires forall i, k :: 0 <= i < k < |found| ==> found[i] < found[k]
    ensures forall i, k :: 0 <= i < k < |waiting| ==> waiting[i] != waiting[k]
                                                      && !Precedes(jobs, waiting[k], waiting[i])
    ensures forall j :: j in waiting <==> j in found
    ensures forall i :: 0 <= i < |waiting| ==> waiting[i] in found
  {
    var less := (a, b) => Ranked(jobs, a, b);
    waiting := Sort(found, less);
    SortPermutes(found, less);
    PrecedesIsOrder(jobs);
    SortOrders(found, less);
    forall j ensures j in waiting <==> j in found {
      assert j in multiset(waiting) <==> j in multiset(found);
    }
    StayDistinct(found, waiting);
    forall i, k | 0 <= i < k < |waiting| ensures !Precedes(jobs, waiting[k], waiting[i]) {
      assert !less(waiting[k], waiting[i]);
      assert waiting[i] in found && waiting[k] in found;
    }
  }

  lemma {:induction false} CountOnce(s: seq<nat>, x: nat)
    requires forall i, k :: 0 <= i < k < |s| ==> s[i] < s[k]
    ensures multiset(s)[x] <= 1
  {
    if s != [] {
      var last := |s| - 1;
      CountOnce(s[..last], x);
      assert s == s[..last] + [s[last]];
      if s[last] == x {
        assert x !in s[..last];
      }
    }
  }

  lemma StayDistinct(a: seq<nat>, b: seq<nat>)
    requires multiset(a) == multiset(b) && forall i, k :: 0 <= i < k < |a| ==> a[i] < a[k]
    ensures forall i, k :: 0 <= i < k < |b| ==> b[i] != b[k]
  {
    forall i, k | 0 <= i < k < |b| ensures b[i] != b[k] {
      CountOnce(a, b[i]);
      assert b == b[..k] + b[k..];
      assert b[i] == b[..k][i] && b[k] == b[k..][0];
      assert b[i] in multiset(b[..k]) && b[k] in multiset(b[k..]);
    }
  }

  // Admission facts

  lemma AdmitFacts(s: Jobs, live: EventTable, now: nat, count: nat, results: seq<CollectiveResult>, j: nat)
    requires AllOk(s, live, now, count, results) && j < |s.jobs| && s.jobs[j].state.Waiting?
    ensures AllBut(s, live, now, count, results, j) && JobOk(s.jobs[j], now) && Finishable(s.jobs[j], State.Failed, now)
    ensures Healthy(s.view, None) ==> Healthy(s.view, Some(j))
    ensures s.jobs[j].active == None
  {
    hide EventsOk, OwnershipOk, CollectivesOk, AdmissionOk, CalmOk;
    Part(s, live, now, count, results, j);
  }

  lemma IdleWeight(job: Job)
    requires job.state.Waiting?
    ensures Weight(job) == 0
  {
  }

  lemma LoadSame(before: seq<Job>, after: seq<Job>, j: nat)
    requires OnlyJob(before, after, j) && Weight(before[j]) == Weight(after[j])
    ensures Load(after) == Load(before)
  {
    hide Weight, Load;
    LoadChanges(before, j, after[j]);
  }

  /** What a policy chose can be allocated. */
  lemma PlacementWorks(s: Jobs, live: EventTable, now: nat, count: nat, results: seq<CollectiveResult>, j: nat,
                       workers: seq<nat>)
    requires AllOk(s, live, now, count, results) && j < |s.jobs| && s.jobs[j].state.Waiting? && s.view.Some?
    requires !Misfit(RequestOf(j, s.jobs[j].spec), s.view.value) && Candidate(s.view.value, workers, s.jobs[j].W())
    ensures CanPlace(s, now, j, workers) && Silent(live, j) && Allocatable(s.view.value, j, workers)
  {
    hide CollectivesOk, AdmissionOk, CalmOk, FreeOf;
    Part(s, live, now, count, results, j);
    assert !s.jobs[j].state.Active();
    NoneAwaited(s.jobs, s.view, live, j);
    hide EventsOk, Silent;
    FreeIsUnassigned(s.jobs, s.assignments, s.view.value, workers, s.jobs[j].W());
    OwnersNone(s.jobs, s.assignments, s.view.value, j);
    hide OwnershipOk, Released;
  }

  // Submission

  ghost predicate Acceptable(spec: JobSpec, gpuCount: nat, scheduled: bool) {
    && SpecOk(spec) && (spec.requestedWorkers != 0 ==> scheduled && spec.workers == [])
    && |spec.compute| == (if spec.requestedWorkers != 0 then spec.requestedWorkers else |spec.workers|)
    && (forall w :: 0 <= w < |spec.workers| ==> spec.workers[w] < gpuCount)
    && (forall w :: 0 <= w < |spec.compute| ==> spec.arrival + spec.steps * spec.compute[w] <= U64_MAX)
  }

  lemma {:induction false} SumPrefix(s: seq<nat>, k: nat)
    requires k <= |s|
    ensures Sum(s[..k]) <= Sum(s)
    decreases |s|
  {
    if k < |s| {
      SumPrefix(s[..|s| - 1], k);
      assert s[..|s| - 1][..k] == s[..k];
    } else {
      assert s[..k] == s;
    }
  }

  lemma TooMuch(spec: JobSpec, part: nat)
    requires part > U64_MAX && part <= Sum(spec.compute) && spec.steps > 0
    ensures spec.steps * Sum(spec.compute) > U64_MAX
  {
    Scale(1, spec.steps, Sum(spec.compute));
  }

  lemma AcceptedOk(spec: JobSpec, gpuCount: nat, scheduled: bool)
    requires Acceptable(spec, gpuCount, scheduled)
    ensures SpecOk(spec) && (!scheduled ==> |spec.workers| == |spec.compute|)
  {
  }

  function NewJob(spec: JobSpec, buckets: nat, event: nat): Job {
    Job(spec, State.Scheduled, 0, buckets, 0, 0, 0, 0, None, Some(event), None, [], [], false, None)
  }

  lemma WorkloadAdded(live: EventTable, event: Event)
    requires event.id !in live && event.payload.Workload?
    ensures OnlyWorkload(live, live[event.id := event])
  {
  }

  /** A job is scheduled together with its arrival. */
  lemma NewJobKeeps(s: Jobs, live: EventTable, now: nat, count: nat, results: seq<CollectiveResult>, spec: JobSpec,
                    buckets: nat,
                    event: Event)
    requires AllOk(s, live, now, count, results) && SpecOk(spec) && buckets == BucketCount(spec)
    requires s.view.None? ==> |spec.workers| == |spec.compute|
    requires event.id !in live && event.payload == Workload(|s.jobs|, Arrival, 0, 0, 0)
             && event.timestamp == spec.arrival
    ensures AllOk(s.(jobs := s.jobs + [NewJob(spec, buckets, event.id)]), live[event.id := event], now, count, results)
  {
    var job := NewJob(spec, buckets, event.id);
    assert JobOk(job, now);
    NewJobEvents(s, live, job, event);
    NewJobOwners(s, job);
    NewJobCollectives(s, job, count, results);
    CalmMore(s.calm, live, event);
    hide JobOk, EventsOk, OwnershipOk, CollectivesOk, Placeable;
  }

  lemma NewJobEvents(s: Jobs, live: EventTable, job: Job, event: Event)
    requires EventsOk(s.jobs, s.view, live) && event.id !in live && job.arrivalEvent == Some(event.id)
             && job.state.Scheduled?
    requires event.payload == Workload(|s.jobs|, Arrival, 0, 0, 0) && event.timestamp == job.spec.arrival
    ensures EventsOk(s.jobs + [job], s.view, live[event.id := event])
  {
    var jobs, live' := s.jobs + [job], live[event.id := event];
    forall j | 0 <= j < |jobs| ensures JobEventsOk(j, jobs[j], live') {
      if j < |s.jobs| {
        OthersKeep(j, s.jobs[j], live, live', |s.jobs|);
      }
    }
    hide JobEventsOk;
    forall e | e in live' && live'[e].payload.Workload? ensures OwnedEvent(jobs, s.view, e, live'[e].payload) {
      if e != event.id {
        assert OwnedEvent(s.jobs, s.view, e, live[e].payload);
      }
    }
  }

  lemma NewJobOwners(s: Jobs, job: Job)
    requires OwnershipOk(s.jobs, s.assignments, s.view) && !job.state.Active()
    ensures OwnershipOk(s.jobs + [job], s.assignments, s.view)
  {
    hide ViewAgrees, HoldsAll;
    forall gpu | gpu in s.assignments ensures Owns(s.jobs + [job], s.assignments[gpu], gpu) {
      assert Owns(s.jobs, s.assignments[gpu], gpu);
    }
  }

  lemma NewJobCollectives(s: Jobs, job: Job, count: nat, results: seq<CollectiveResult>)
    requires CollectivesOk(s.jobs, s.collectives, count, results) && job.active == None
    ensures CollectivesOk(s.jobs + [job], s.collectives, count, results)
  {
    hide WasReported;
    forall c | c in s.collectives ensures AwaitedBy(s.jobs + [job], s.collectives[c], c) {
      assert AwaitedBy(s.jobs, s.collectives[c], c);
    }
  }

  lemma CalmMore(calm: bool, live: EventTable, event: Event)
    requires CalmOk(calm, live) && event.payload.Workload?
    ensures CalmOk(calm, live[event.id := event])
  {
  }

  lemma MoreEvents(j: nat, job: Job, live: EventTable, event: Event)
    requires JobEventsOk(j, job, live) && event.id !in live
    ensures JobEventsOk(j, job, live[event.id := event])
  {
    if job.state.Active() {
      forall w, i | 0 <= w < job.W() && 0 <= i < job.PerWorker() && job.events[w][i].Some?
        ensures Pends(j, job, w, i, live[event.id := event])
      {
        assert Pends(j, job, w, i, live);
      }
    }
  }

  /** A control event is scheduled. */
  lemma ControlAdded(s: Jobs, live: EventTable, now: nat, count: nat, results: seq<CollectiveResult>, event: Event)
    requires AllOk(s, live, now, count, results) && event.id !in live && event.payload.Workload?
    requires event.payload.kind != Arrival && event.payload.kind != ComputeReady
             && ControlOk(s.jobs, s.view, event.payload)
    ensures AllOk(s, live[event.id := event], now, count, results)
  {
    hide JobOk, OwnershipOk, CollectivesOk, AdmissionOk, CalmOk;
    var live' := live[event.id := event];
    CalmMore(s.calm, live, event);
    forall j | 0 <= j < |s.jobs| ensures JobEventsOk(j, s.jobs[j], live') {
      MoreEvents(j, s.jobs[j], live, event);
    }
    hide JobEventsOk;
    forall e | e in live' && live'[e].payload.Workload? ensures OwnedEvent(s.jobs, s.view, e, live'[e].payload) {
      if e != event.id {
        assert OwnedEvent(s.jobs, s.view, e, live[e].payload);
      }
    }
  }
}
