/**
 The workload engine of `simulator/src/workload`: `engine.cpp`, `scheduling.cpp` and `metrics.cpp`.
 Guards that throw `std::logic_error` are `assert` statements: they are proved never to fire.
 */
module Workloads {
  import opened Prelude
  import opened Events
  import opened Simulations
  import opened JobState
  import opened JobSteps
  import opened Placements
  import opened Inventory
  import opened RingState
  import opened RingTables
  import opened TransportState
  import opened Cluster
  import opened ClusterModel

  datatype JobSnapshot = JobSnapshot(
    id: nat, state: State, completedSteps: nat, arrival: nat, finished: Option<nat>,
    computeGpu: nat, idleGpu: nat, elapsed: nat, allocatedAt: Option<nat>, waiting: nat)

  // Scheduling compute events

  /** The rows scheduled so far, the last one possibly short, and nothing else of the job's own. */
  ghost predicate RowsPart(j: nat, job: Job, rows: seq<Row>, now: nat, before: EventTable, live: EventTable) {
    && job.buckets > 0 && |rows| <= job.W() && OnlyMine(before, live, j)
    && (forall w :: 0 <= w < |rows| ==> |rows[w]| <= job.PerWorker())
    && (forall w, i :: 0 <= w < |rows| && 0 <= i < |rows[w]| ==> RowEvent(j, job, rows, w, i, now, live))
    && (forall e :: e in live && Mine(j, live[e].payload) ==> InRows(rows, e, live[e].payload, job))
  }

  lemma RowsNone(j: nat, job: Job, now: nat, live: EventTable)
    requires job.buckets > 0 && Silent(live, j)
    ensures RowsPart(j, job, [], now, live, live)
  {
  }

  lemma RowOpens(j: nat, job: Job, rows: seq<Row>, now: nat, before: EventTable, live: EventTable)
    requires RowsPart(j, job, rows, now, before, live) && |rows| < job.W()
    ensures RowsPart(j, job, rows + [[]], now, before, live)
  {
    hide Offset;
    forall w, i | 0 <= w < |rows + [[]]| && 0 <= i < |(rows + [[]])[w]|
      ensures RowEvent(j, job, rows + [[]], w, i, now, live) {
      assert RowEvent(j, job, rows, w, i, now, live);
    }
  }

  /** The next event of the last row. */
  lemma RowGrows(j: nat, job: Job, rows: seq<Row>, row: Row, now: nat, before: EventTable, live: EventTable,
                 event: Event)
    requires RowsPart(j, job, rows + [row], now, before, live) && |row| < job.PerWorker() && event.id !in live
    requires event.payload == Workload(j, ComputeReady, |rows|, job.step, job.Bucket(|row|))
    requires event.timestamp == now + Offset(job.spec.compute[|rows|], |row| + 1, job.PerWorker())
    ensures RowsPart(j, job, rows + [row + [Some(event.id)]], now, before, live[event.id := event])
  {
    hide Offset;
    var rows', live' := rows + [row + [Some(event.id)]], live[event.id := event];
    forall w, i | 0 <= w < |rows'| && 0 <= i < |rows'[w]| ensures RowEvent(j, job, rows', w, i, now, live') {
      if w < |rows| || i < |row| {
        assert RowEvent(j, job, rows + [row], w, i, now, live);
      }
    }
    forall e | e in live' && Mine(j, live'[e].payload) ensures InRows(rows', e, live'[e].payload, job) {
      if e != event.id {
        assert InRows(rows + [row], e, live[e].payload, job);
      }
    }
    forall w | 0 <= w < |rows'| ensures |rows'[w]| <= job.PerWorker() {
      assert |(rows + [row])[w]| <= job.PerWorker();
    }
  }

  lemma RowsDone(j: nat, job: Job, rows: seq<Row>, now: nat, before: EventTable, live: EventTable)
    requires RowsPart(j, job, rows, now, before, live) && |rows| == job.W()
    requires forall w :: 0 <= w < |rows| ==> |rows[w]| == job.PerWorker()
    ensures RowsScheduled(j, job, rows, now, before, live)
  {
    hide Offset;
    forall w, i | 0 <= w < |rows| && 0 <= i < |rows[w]| ensures rows[w][i] != None {
      assert RowEvent(j, job, rows, w, i, now, live);
    }
  }

  /** One worker's compute events. */
  method ScheduleRow(ctx: Simulation, j: nat, job: Job, ghost rows: seq<Row>, worker: nat, ghost before: EventTable)
    returns (r: Result<Row>)
    requires ctx.Valid() && ctx.lifecycle == Running
    requires worker == |rows| < job.W() && RowsPart(j, job, rows, ctx.now, before, ctx.Live())
    modifies ctx`nextEventId, ctx`idsExhausted, ctx`queue
    ensures ctx.Valid()
    ensures r.Throw? ==> r.error == OverflowError
    ensures r.Ok? ==> |r.value| == job.PerWorker() && RowsPart(j, job, rows + [r.value], ctx.now, before, ctx.Live())
  {
    hide EngineOk, Offset, Engine.Live, RowsPart;
    var row := [];
    RowOpens(j, job, rows, ctx.now, before, ctx.Live());
    PartFacts(j, job, rows, ctx.now, before, ctx.Live());
    for index := 0 to job.PerWorker()
      invariant ctx.Valid() && |row| == index && RowsPart(j, job, rows + [row], ctx.now, before, ctx.Live())
    {
      var offset := Offset(job.spec.compute[worker], index + 1, job.PerWorker());
      if ctx.now + offset > U64_MAX {
        return Throw(OverflowError);
      }
      ghost var live := ctx.Live();
      var scheduled := ctx.ContextSchedule(ctx.now + offset, Normal,
                                           Workload(j, ComputeReady, worker, job.step, job.Bucket(index)));
      if scheduled.Throw? {
        return Throw(OverflowError);
      }
      RowGrows(j, job, rows, row, ctx.now, before, live, scheduled.value);
      row := row + [Some(scheduled.value.id)];
    }
    return Ok(row);
  }

  lemma PartFacts(j: nat, job: Job, rows: seq<Row>, now: nat, before: EventTable, live: EventTable)
    requires RowsPart(j, job, rows, now, before, live)
    ensures job.buckets > 0 && |rows| <= job.W()
  {
  }

  /** The compute events of a whole step. */
  method ScheduleRows(ctx: Simulation, j: nat, job: Job) returns (r: Result<seq<Row>>)
    requires ctx.Valid() && ctx.lifecycle == Running && Silent(ctx.Live(), j) && job.buckets > 0
    modifies ctx`nextEventId, ctx`idsExhausted, ctx`queue
    ensures ctx.Valid()
    ensures r.Throw? ==> r.error == OverflowError
    ensures r.Ok? ==> RowsScheduled(j, job, r.value, ctx.now, old(ctx.Live()), ctx.Live())
  {
    hide EngineOk, Engine.Live, RowsPart, RowsScheduled, Silent;
    var rows: seq<Row> := [];
    ghost var before := ctx.Live();
    RowsNone(j, job, ctx.now, before);
    for worker := 0 to job.W()
      invariant ctx.Valid() && |rows| == worker && RowsPart(j, job, rows, ctx.now, before, ctx.Live())
      invariant forall w :: 0 <= w < |rows| ==> |rows[w]| == job.PerWorker()
    {
      var row := ScheduleRow(ctx, j, job, rows, worker, before);
      if row.Throw? {
        return Throw(OverflowError);
      }
      rows := rows + [row.value];
    }
    RowsDone(j, job, rows, ctx.now, before, ctx.Live());
    return Ok(rows);
  }

  // Cancelling events

  /** Some events of job j's own are gone, and nothing else has changed. */
  ghost predicate Fewer(live: EventTable, live': EventTable, j: nat) {
    && (forall e :: e in live' ==> e in live && live'[e] == live[e])
    && (forall e :: e in live && !Mine(j, live[e].payload) ==> e in live')
  }

  lemma FewerSame(live: EventTable, j: nat)
    ensures Fewer(live, live, j)
  {
  }

  lemma FewerStill(before: EventTable, live: EventTable, j: nat, e: nat)
    requires Fewer(before, live, j) && e in before && Mine(j, before[e].payload)
    ensures Fewer(before, live - {e}, j) && Fewer(before, if e in live then live - {e} else live, j)
  {
  }

  /** Every pending event of a row is cancelled. */
  method CancelRow(ctx: Simulation, j: nat, row: Row, ghost before: EventTable)
    requires ctx.Valid() && ctx.lifecycle == Running && Fewer(before, ctx.Live(), j)
    requires forall i :: 0 <= i < |row| && row[i].Some? ==>
               row[i].value in before && Mine(j, before[row[i].value].payload)
    modifies ctx`cancelledIds, ctx`cancelledEvents, ctx`everCancelled
    ensures ctx.Valid() && Fewer(before, ctx.Live(), j) && Fewer(old(ctx.Live()), ctx.Live(), j)
    ensures forall i :: 0 <= i < |row| && row[i].Some? ==> row[i].value !in ctx.Live()
  {
    hide EngineOk, Engine.Live;
    for k := 0 to |row|
      invariant ctx.Valid() && Fewer(before, ctx.Live(), j) && Fewer(old(ctx.Live()), ctx.Live(), j)
      invariant forall i :: 0 <= i < k && row[i].Some? ==> row[i].value !in ctx.Live()
    {
      if row[k].Some? {
        var _ := ctx.ContextCancel(row[k].value);
      }
    }
  }

  ghost predicate AllAwaited(j: nat, job: Job, live: EventTable) {
    forall e :: e in live && Mine(j, live[e].payload) ==> Awaited(job, e, live[e].payload)
  }

  ghost predicate RowsGone(job: Job, live: EventTable, k: nat)
    requires k <= |job.events|
  {
    forall w :: 0 <= w < k ==> forall i :: 0 <= i < |job.events[w]| && job.events[w][i].Some? ==>
      job.events[w][i].value !in live
  }

  /** Once everything a job awaits is cancelled, nothing of its own is pending. */
  lemma CancelledAll(j: nat, job: Job, before: EventTable, live: EventTable)
    requires AllAwaited(j, job, before) && Fewer(before, live, j) && RowsGone(job, live, |job.events|)
    requires job.arrivalEvent.Some? ==> job.arrivalEvent.value !in live
    ensures Silent(live, j) && OnlyMine(before, live, j)
  {
    assert forall e :: e in live ==> e in before && live[e] == before[e];
  }

  lemma RowIsMine(j: nat, job: Job, live: EventTable, w: nat)
    requires JobEventsOk(j, job, live) && job.state.Active() && w < |job.events|
    ensures forall i :: 0 <= i < |job.events[w]| && job.events[w][i].Some? ==>
              job.events[w][i].value in live && Mine(j, live[job.events[w][i].value].payload)
  {
    forall i | 0 <= i < |job.events[w]| && job.events[w][i].Some?
      ensures job.events[w][i].value in live && Mine(j, live[job.events[w][i].value].payload)
    {
      assert Pends(j, job, w, i, live);
    }
  }

  lemma FewerGone(before: EventTable, live: EventTable, j: nat, job: Job, k: nat)
    requires Fewer(before, live, j) && k <= |job.events| && RowsGone(job, before, k)
    ensures RowsGone(job, live, k)
  {
  }

  lemma GoneWithout(job: Job, live: EventTable, k: nat, e: nat)
    requires k <= |job.events| && RowsGone(job, live, k)
    ensures RowsGone(job, live - {e}, k)
  {
  }

  /** The part of `finish` that cancels what the job still waits for. */
  method CancelEvents(ctx: Simulation, j: nat, job: Job)
    requires ctx.Valid() && ctx.lifecycle == Running
    requires JobEventsOk(j, job, ctx.Live()) && AllAwaited(j, job, ctx.Live())
             && (job.state.Active() || job.events == [])
    modifies ctx`cancelledIds, ctx`cancelledEvents, ctx`everCancelled
    ensures ctx.Valid() && OnlyMine(old(ctx.Live()), ctx.Live(), j) && Silent(ctx.Live(), j)
  {
    hide EngineOk, Engine.Live, JobEventsOk, AllAwaited, OnlyMine, Silent, Fewer;
    ghost var before := ctx.Live();
    FewerSame(before, j);
    for w := 0 to |job.events|
      invariant ctx.Valid() && Fewer(before, ctx.Live(), j) && RowsGone(job, ctx.Live(), w)
    {
      RowIsMine(j, job, before, w);
      ghost var live := ctx.Live();
      CancelRow(ctx, j, job.events[w], before);
      FewerGone(live, ctx.Live(), j, job, w);
    }
    if job.arrivalEvent.Some? {
      ghost var live := ctx.Live();
      ArrivalIsMine(j, job, before);
      var _ := ctx.ContextCancel(job.arrivalEvent.value);
      FewerStill(before, live, j, job.arrivalEvent.value);
      GoneWithout(job, live, |job.events|, job.arrivalEvent.value);
    }
    CancelledAll(j, job, before, ctx.Live());
  }

  lemma ArrivalIsMine(j: nat, job: Job, live: EventTable)
    requires JobEventsOk(j, job, live) && job.arrivalEvent.Some?
    ensures job.arrivalEvent.value in live && Mine(j, live[job.arrivalEvent.value].payload)
  {
  }

  // Snapshots

  /** The GPU time of an allocation. */
  function GpuTime(workers: nat, span: nat): nat {
    span * workers
  }

  /** What a job computes over all its steps. */
  ghost function WholeCompute(spec: JobSpec): nat {
    spec.steps * Sum(spec.compute)
  }

  /** Up to when a snapshot taken now accounts for a job. */
  function EndOf(job: Job, now: nat): nat {
    if job.finished.Some? then job.finished.value else now
  }

  /** Compute and idle time fill the allocation, and waiting and allocation fill the time since arrival. */
  ghost predicate Accounts(s: JobSnapshot, job: Job, end: nat) {
    && s.state == job.state && s.completedSteps == job.step && s.arrival == job.spec.arrival
    && s.finished == job.finished && s.allocatedAt == job.allocatedAt
    && (end < job.spec.arrival ==> s.computeGpu == 0 && s.idleGpu == 0 && s.elapsed == 0 && s.waiting == 0)
    && (end >= job.spec.arrival ==> s.elapsed == end - job.spec.arrival)
    && (end >= job.spec.arrival && job.allocatedAt == None ==>
          s.computeGpu == 0 && s.idleGpu == 0 && s.waiting == s.elapsed)
    && (end >= job.spec.arrival && job.allocatedAt.Some? ==>
          && job.allocatedAt.value <= end
          && s.computeGpu + s.idleGpu == GpuTime(job.W(), end - job.allocatedAt.value)
          && s.waiting + (end - job.allocatedAt.value) == s.elapsed)
    && (job.state.Succeeded? && end >= job.spec.arrival ==> s.computeGpu == WholeCompute(job.spec))
  }

  /** What `inspect` relies on: a job in order, even while it is about to end. */
  ghost predicate Inspectable(job: Job, at: nat) {
    if job.state.Terminal() then EndedOk(job)
    else if job.state.Active() then StepOk(job) && ClockOk(job, at)
    else IdleOk(job, at)
  }

  /** `inspect`; `at` is a time at which the job was known to be in order. */
  method Inspect(j: nat, job: Job, now: nat, ghost at: nat) returns (r: Result<JobSnapshot>)
    requires Inspectable(job, at)
    ensures r.Throw? && r.error == InvalidArgument <==> job.state.Active() && job.spec.arrival <= now < job.stepStarted
    ensures r.Throw? && r.error != InvalidArgument ==>
              r.error == OverflowError && job.allocatedAt.Some? && job.allocatedAt.value <= EndOf(job, now)
              && GpuTime(job.W(), EndOf(job, now) - job.allocatedAt.value) > U64_MAX
    ensures r.Ok? ==> r.value.id == j && Accounts(r.value, job, EndOf(job, now))
    ensures r.Ok? && job.state.Active() && job.stepStarted <= now ==>
              r.value.computeGpu == job.computeGpu + StepCompute(job.spec.compute, now - job.stepStarted)
  {
    InspectFacts(job, now, at);
    hide Inspectable, StepCompute, GpuTime, WholeCompute;
    var end := if job.finished.Some? then job.finished.value else now;
    if end < job.spec.arrival {
      return Ok(JobSnapshot(j, job.state, job.step, job.spec.arrival, job.finished, 0, 0, 0, job.allocatedAt, 0));
    }
    var elapsed := end - job.spec.arrival;
    var compute := job.computeGpu;
    if job.placed && !job.state.Terminal() {
      if now < job.stepStarted {
        return Throw(InvalidArgument);
      }
      var more := AddStepCompute(job.spec.compute, now - job.stepStarted, compute);
      compute := more;
    }
    var waitEnd := if job.allocatedAt.Some? then job.allocatedAt.value else end;
    var waiting := waitEnd - job.spec.arrival;
    var span := if job.allocatedAt.Some? then GpuTime(|job.spec.workers|, end - job.allocatedAt.value) else 0;
    if span > U64_MAX {
      return Throw(OverflowError);
    }
    assert compute <= span;
    return Ok(JobSnapshot(j, job.state, job.step, job.spec.arrival, job.finished, compute, span - compute, elapsed,
                          job.allocatedAt, waiting));
  }

  /** The loop of `inspect` over the workers; the sum is proved to stay in range. */
  method AddStepCompute(compute: seq<nat>, elapsed: nat, start: nat) returns (r: nat)
    requires start + StepCompute(compute, elapsed) <= U64_MAX
    ensures r == start + StepCompute(compute, elapsed)
  {
    r := start;
    for w := 0 to |compute|
      invariant r == start + StepCompute(compute[..w], elapsed)
    {
      StepComputePrefix(compute, w + 1, elapsed);
      assert compute[..w + 1][..w] == compute[..w];
      var part := if compute[w] < elapsed then compute[w] else elapsed;
      assert r + part <= U64_MAX;
      r := r + part;
    }
    assert compute[..|compute|] == compute;
  }

  lemma {:induction false} StepComputePrefix(compute: seq<nat>, w: nat, elapsed: nat)
    requires w <= |compute|
    ensures StepCompute(compute[..w], elapsed) <= StepCompute(compute, elapsed)
    decreases |compute|
  {
    if w < |compute| {
      var last := |compute| - 1;
      StepComputePrefix(compute[..last], w, elapsed);
      assert compute[..last][..w] == compute[..w];
    } else {
      assert compute[..w] == compute;
    }
  }

  lemma InspectFacts(job: Job, now: nat, at: nat)
    requires Inspectable(job, at)
    ensures job.state.Active() ==> job.placed && job.finished == None && job.allocatedAt.Some?
    ensures job.placed && !job.state.Terminal() ==> job.state.Active()
    ensures job.allocatedAt.Some? ==> |job.spec.workers| == job.W() && job.spec.arrival <= job.allocatedAt.value
    ensures job.allocatedAt == None ==> job.computeGpu == 0 && !job.placed
    ensures job.state.Terminal() ==>
              job.finished.Some? && (job.allocatedAt.Some? ==>
                                       job.placed && job.allocatedAt.value <= job.finished.value
                                       && job.computeGpu <= GpuTime(|job.spec.workers|,
                                                                    job.finished.value - job.allocatedAt.value))
    ensures job.state.Active() && job.stepStarted <= now ==>
              && job.allocatedAt.value <= now
              && job.computeGpu + StepCompute(job.spec.compute, now - job.stepStarted)
                 <= GpuTime(|job.spec.workers|, now - job.allocatedAt.value)
              && job.computeGpu + StepCompute(job.spec.compute, now - job.stepStarted) <= U64_MAX
    ensures job.state.Active() ==> job.spec.arrival <= job.stepStarted
    ensures job.state.Succeeded? ==> job.computeGpu == WholeCompute(job.spec)
    ensures !job.state.Terminal() ==> job.finished == None
  {
    hide ReadyOk, StepCompute, Sum, GpuTime, WholeCompute;
    if job.state.Active() && job.stepStarted <= now {
      ActiveFits(job, now, at);
    }
    if job.state.Terminal() && job.allocatedAt.Some? {
      EndedFits(job);
    }
    if job.state.Succeeded? {
      EndedWhole(job);
    }
  }

  lemma ActiveFits(job: Job, now: nat, at: nat)
    requires StepOk(job) && ClockOk(job, at) && job.stepStarted <= now
    ensures var compute := job.computeGpu + StepCompute(job.spec.compute, now - job.stepStarted);
            job.allocatedAt.value <= now && compute <= GpuTime(|job.spec.workers|, now - job.allocatedAt.value)
              && compute <= U64_MAX
  {
    hide ReadyOk, StepCompute, Sum, GpuTime, SpecOk;
    var alloc := job.allocatedAt.value;
    assert forall w :: 0 <= w < job.W() ==> job.step * job.spec.compute[w] <= job.stepStarted - alloc;
    FitsAllocation(job.spec.compute, job.step, alloc, job.stepStarted, now);
    FitsWord(job.spec, job.step, now - job.stepStarted);
  }

  lemma FitsAllocation(compute: seq<nat>, step: nat, alloc: nat, started: nat, now: nat)
    requires alloc <= started <= now && forall w :: 0 <= w < |compute| ==> step * compute[w] <= started - alloc
    ensures step * Sum(compute) + StepCompute(compute, now - started) <= GpuTime(|compute|, now - alloc)
  {
    hide StepCompute, Sum;
    StepComputeBounds(compute, now - started, step, started - alloc);
    assert (started - alloc) + (now - started) == now - alloc;
  }

  lemma FitsWord(spec: JobSpec, step: nat, elapsed: nat)
    requires SpecOk(spec) && step < spec.steps
    ensures step * Sum(spec.compute) + StepCompute(spec.compute, elapsed) <= U64_MAX
  {
    hide StepCompute, Sum;
    StepComputeAtMost(spec.compute, elapsed);
    Scale(step + 1, spec.steps, Sum(spec.compute));
    Distribute(Sum(spec.compute), step, 1);
  }

  lemma {:induction false} StepComputeAtMost(compute: seq<nat>, elapsed: nat)
    ensures StepCompute(compute, elapsed) <= Sum(compute)
  {
    if |compute| > 0 {
      StepComputeAtMost(compute[..|compute| - 1], elapsed);
    }
  }

  lemma EndedFits(job: Job)
    requires EndedOk(job) && job.allocatedAt.Some?
    ensures job.allocatedAt.value <= job.finished.value
    ensures job.computeGpu <= GpuTime(|job.spec.workers|, job.finished.value - job.allocatedAt.value)
  {
  }

  lemma EndedWhole(job: Job)
    requires EndedOk(job) && job.state.Succeeded?
    ensures job.computeGpu == WholeCompute(job.spec)
  {
  }
}
