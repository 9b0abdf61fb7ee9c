/** How a training job progresses through its steps and buckets, and where its GPU time goes. */
module JobSteps {
  import opened Prelude
  import opened Events
  import opened JobState

  /** How many of the first m workers have fired their event in a column. */
  ghost function Fired(events: seq<Row>, column: nat, m: nat): nat
    requires m <= |events| && forall w :: 0 <= w < |events| ==> column < |events[w]|
  {
    if m == 0 then 0 else Fired(events, column, m - 1) + (if events[m - 1][column] == None then 1 else 0)
  }

  ghost predicate RowsOk(job: Job) {
    && job.buckets > 0 && |job.events| == job.W()
    && forall w :: 0 <= w < |job.events| ==> |job.events[w]| == job.PerWorker()
  }

  /** A bucket is ready on as many workers as have fired its event. */
  ghost predicate ReadyOk(job: Job) {
    && RowsOk(job) && |job.ready| == job.buckets
    && (forall b :: 0 <= b < job.buckets ==> job.ready[b] == Fired(job.events, job.Column(b), job.W()))
    && job.computeComplete == job.ready[job.buckets - 1]
  }

  /** A job in the middle of a step. */
  ghost predicate StepOk(job: Job) {
    && job.state.Active() && job.placed && SpecOk(job.spec) && job.buckets == BucketCount(job.spec)
    && |job.spec.workers| == job.W() && job.step < job.spec.steps
    && job.completedBuckets < job.buckets && ReadyOk(job)
    && (forall b :: 0 <= b < job.completedBuckets ==> job.ready[b] == job.W())
    && job.arrivalEvent == None && job.finished == None
  }

  /** A collective is under way exactly when the next bucket is ready on every worker. */
  ghost predicate Settled(job: Job)
    requires StepOk(job)
  {
    job.active.Some? <==> job.ready[job.completedBuckets] == job.W()
  }

  /** Each finished step took at least every worker's compute time. */
  ghost predicate ClockOk(job: Job, now: nat)
    requires RowsOk(job)
  {
    && job.allocatedAt.Some? && job.spec.arrival <= job.allocatedAt.value <= job.stepStarted <= now
    && job.computeGpu == job.step * Sum(job.spec.compute)
    && (forall w :: 0 <= w < job.W() ==>
          job.allocatedAt.value + job.step * job.spec.compute[w] <= job.stepStarted)
    && (forall w :: 0 <= w < job.W() && job.events[w][job.PerWorker() - 1] == None ==>
          job.stepStarted + job.spec.compute[w] <= now)
  }

  /** A job that has ended: what it computed fits in what it was allocated. */
  ghost predicate EndedOk(job: Job) {
    && job.state.Terminal() && job.finished.Some? && job.arrivalEvent == None && |job.spec.compute| > 0
    && (job.placed <==> job.allocatedAt.Some?)
    && (!job.placed ==> job.computeGpu == 0 && !job.state.Succeeded?)
    && (job.placed ==> |job.spec.workers| == job.W()
                       && job.spec.arrival <= job.allocatedAt.value <= job.finished.value
                       && job.computeGpu <= job.W() * (job.finished.value - job.allocatedAt.value))
    && (job.state.Succeeded? ==> job.step == job.spec.steps && job.computeGpu == job.spec.steps * Sum(job.spec.compute))
  }

  /** A job that has not been placed yet. */
  ghost predicate IdleOk(job: Job, now: nat) {
    && (job.state.Scheduled? || job.state.Waiting?)
    && SpecOk(job.spec) && job.buckets == BucketCount(job.spec) && job.step == 0
    && !job.placed && job.allocatedAt == None && job.active == None && job.finished == None && job.computeGpu == 0
    && job.events == []
    && (job.state.Waiting? ==> job.spec.arrival <= now && job.arrivalEvent == None)
  }

  ghost predicate JobOk(job: Job, now: nat) {
    if job.state.Terminal() then EndedOk(job)
    else if job.state.Active() then StepOk(job) && Settled(job) && ClockOk(job, now)
    else IdleOk(job, now) && (job.state.Scheduled? ==> job.arrivalEvent.Some?)
  }

  lemma JobLater(job: Job, now: nat, later: nat)
    requires JobOk(job, now) && now <= later
    ensures JobOk(job, later)
  {
    hide ReadyOk, SpecOk;
  }

  // Counting fired events

  lemma {:induction false} FiredAtMost(events: seq<Row>, column: nat, m: nat)
    requires m <= |events| && forall w :: 0 <= w < |events| ==> column < |events[w]|
    ensures Fired(events, column, m) <= m
    ensures Fired(events, column, m) == m <==> forall w :: 0 <= w < m ==> events[w][column] == None
  {
    if m > 0 {
      FiredAtMost(events, column, m - 1);
    }
  }

  lemma {:induction false} FiredNone(events: seq<Row>, column: nat, m: nat)
    requires m <= |events| && forall w :: 0 <= w < |events| ==> column < |events[w]|
    requires forall w :: 0 <= w < |events| ==> events[w][column] != None
    ensures Fired(events, column, m) == 0
  {
    if m > 0 {
      FiredNone(events, column, m - 1);
    }
  }

  /** One more event fires. */
  lemma {:induction false} FiredMore(events: seq<Row>, column: nat, m: nat, worker: nat, at: nat)
    requires m <= |events| && worker < |events| && at < |events[worker]| && events[worker][at] != None
    requires forall w :: 0 <= w < |events| ==> column < |events[w]|
    ensures var events' := events[worker := events[worker][at := None]];
            Fired(events', column, m) == Fired(events, column, m) + (if column == at && worker < m then 1 else 0)
  {
    if m > 0 {
      FiredMore(events, column, m - 1, worker, at);
    }
  }

  // Steps

  function Zeros(n: nat): (zeros: seq<nat>)
    ensures |zeros| == n && forall i :: 0 <= i < n ==> zeros[i] == 0
  {
    if n == 0 then [] else Zeros(n - 1) + [0]
  }

  /** `start_step`, with the compute events it scheduled. */
  function Begun(job: Job, rows: seq<Row>, now: nat): Job {
    job.(state := Computing, stepStarted := now, completedBuckets := 0, computeComplete := 0,
         ready := Zeros(job.buckets), events := rows)
  }

  ghost predicate AllPending(job: Job, rows: seq<Row>) {
    && |rows| == job.W()
    && forall w :: 0 <= w < |rows| ==> |rows[w]| == job.PerWorker() && forall i :: 0 <= i < |rows[w]| ==>
       rows[w][i] != None
  }

  /** What a job must be for a step to start. */
  ghost predicate CanBegin(job: Job, now: nat) {
    && job.placed && SpecOk(job.spec) && job.buckets == BucketCount(job.spec) && |job.spec.workers| == job.W()
    && job.step < job.spec.steps && job.active == None && job.arrivalEvent == None && job.finished == None
    && job.allocatedAt.Some? && job.spec.arrival <= job.allocatedAt.value <= now
    && job.computeGpu == job.step * Sum(job.spec.compute)
    && (forall w :: 0 <= w < job.W() ==> job.allocatedAt.value + job.step * job.spec.compute[w] <= now)
  }

  lemma BucketsPositive(spec: JobSpec)
    requires SpecOk(spec)
    ensures BucketCount(spec) > 0
  {
    if spec.gradientBytes / spec.bucketBytes == 0 {
      assert spec.gradientBytes % spec.bucketBytes
             == spec.gradientBytes - spec.bucketBytes * (spec.gradientBytes / spec.bucketBytes);
    }
  }

  lemma BegunOk(job: Job, rows: seq<Row>, now: nat)
    requires CanBegin(job, now) && AllPending(job, rows)
    ensures JobOk(Begun(job, rows, now), now)
  {
    var job' := Begun(job, rows, now);
    BucketsPositive(job.spec);
    hide SpecOk, Sum, BucketCount;
    forall b | 0 <= b < job.buckets ensures job'.ready[b] == Fired(rows, job'.Column(b), job'.W()) {
      FiredNone(rows, job'.Column(b), job'.W());
    }
  }

  /** The record after a compute event fires, before a collective may start. */
  function WithFired(job: Job, worker: nat, bucket: nat): Job
    requires worker < |job.events| && job.Column(bucket) < |job.events[worker]| && bucket < |job.ready|
  {
    var ready := if job.spec.overlap then job.ready[bucket := job.ready[bucket] + 1] else Incremented(job.ready);
    var complete := if bucket + 1 == job.buckets then job.computeComplete + 1 else job.computeComplete;
    job.(events := job.events[worker := job.events[worker][job.Column(bucket) := None]], ready := ready,
         computeComplete := complete,
         state := if complete == job.W() && job.active.Some? then Communicating else job.state)
  }

  function Incremented(s: seq<nat>): (r: seq<nat>)
    ensures |r| == |s| && forall i :: 0 <= i < |s| ==> r[i] == s[i] + 1
  {
    if s == [] then [] else Incremented(s[..|s| - 1]) + [s[|s| - 1] + 1]
  }

  /** A pending compute event of the job. */
  ghost predicate Fires(job: Job, worker: nat, bucket: nat) {
    && StepOk(job) && worker < job.W() && bucket < job.buckets && bucket == job.Bucket(job.Column(bucket))
    && job.events[worker][job.Column(bucket)] != None
  }

  lemma FiredReady(job: Job, worker: nat, bucket: nat)
    requires Fires(job, worker, bucket)
    ensures ReadyOk(WithFired(job, worker, bucket))
  {
    hide SpecOk, BucketCount;
    var job' := WithFired(job, worker, bucket);
    forall b | 0 <= b < job.buckets ensures job'.ready[b] == Fired(job'.events, job'.Column(b), job'.W()) {
      FiredMore(job.events, job.Column(b), job.W(), worker, job.Column(bucket));
    }
  }

  lemma FiredStep(job: Job, worker: nat, bucket: nat)
    requires Fires(job, worker, bucket) && Settled(job)
    ensures StepOk(WithFired(job, worker, bucket))
    ensures job.active.Some? ==> Settled(WithFired(job, worker, bucket))
  {
    var job' := WithFired(job, worker, bucket);
    FiredReady(job, worker, bucket);
    forall b | 0 <= b <= job.completedBuckets && job.ready[b] == job.W() ensures job'.ready[b] == job.W() {
      FiredAtMost(job.events, job.Column(b), job.W());
      FiredAtMost(job'.events, job.Column(b), job.W());
    }
    hide SpecOk, BucketCount, Fired;
  }

  lemma FiredClock(job: Job, worker: nat, bucket: nat, now: nat)
    requires Fires(job, worker, bucket) && ClockOk(job, now)
    requires bucket + 1 == job.buckets ==> job.stepStarted + job.spec.compute[worker] <= now
    ensures RowsOk(WithFired(job, worker, bucket)) && ClockOk(WithFired(job, worker, bucket), now)
  {
    hide SpecOk, BucketCount, Sum;
  }

  /** A collective for the next bucket is under way. */
  function WithCollective(job: Job, c: nat): Job {
    job.(active := Some(c), state := if job.computeComplete == job.W() then Communicating else Overlapping)
  }

  lemma CollectiveStarts(job: Job, c: nat, now: nat)
    requires StepOk(job) && ClockOk(job, now) && job.ready[job.completedBuckets] == job.W()
    ensures JobOk(WithCollective(job, c), now)
  {
    hide SpecOk, BucketCount, Sum, Fired;
    assert ReadyOk(WithCollective(job, c));
  }

  /** A bucket is done and others of its step are left. */
  function WithBucketDone(job: Job): Job {
    job.(active := None, completedBuckets := job.completedBuckets + 1,
         state := if job.computeComplete == job.W() then Communicating else Computing)
  }

  lemma BucketDone(job: Job, now: nat)
    requires JobOk(job, now) && job.state.Active() && job.active.Some? && job.completedBuckets + 1 < job.buckets
    ensures StepOk(WithBucketDone(job)) && ClockOk(WithBucketDone(job), now)
  {
    hide SpecOk, BucketCount, Sum, Fired;
    assert ReadyOk(WithBucketDone(job));
  }

  /** The last bucket of a step is done. */
  function WithStepDone(job: Job): Job {
    job.(active := None, completedBuckets := job.completedBuckets + 1,
         computeGpu := job.computeGpu + SumOf(job.spec.compute), step := job.step + 1)
  }

  function SumOf(s: seq<nat>): (r: nat)
    ensures r == Sum(s)
  {
    if |s| == 0 then 0 else SumOf(s[..|s| - 1]) + s[|s| - 1]
  }

  /** Once the last bucket's collective is under way, every compute event of the step has fired. */
  lemma AllFired(job: Job, now: nat)
    requires JobOk(job, now) && job.state.Active() && job.active.Some? && job.completedBuckets + 1 == job.buckets
    ensures forall w :: 0 <= w < job.W() ==> forall i :: 0 <= i < |job.events[w]| ==> job.events[w][i] == None
  {
    hide SpecOk, BucketCount, Sum;
    forall w, i | 0 <= w < job.W() && 0 <= i < job.PerWorker() ensures job.events[w][i] == None {
      FiredAtMost(job.events, i, job.W());
      assert job.Column(i) == i ==> job.ready[i] == Fired(job.events, i, job.W());
      assert job.ready[0] == Fired(job.events, job.Column(0), job.W());
    }
  }

  /** When the last bucket is done every worker has computed, so the step took each worker's time. */
  lemma StepDone(job: Job, now: nat)
    requires JobOk(job, now) && job.state.Active() && job.active.Some? && job.completedBuckets + 1 == job.buckets
    ensures job.step + 1 < job.spec.steps ==> CanBegin(WithStepDone(job), now)
    ensures job.allocatedAt.Some? && job.allocatedAt.value <= now
    ensures WithStepDone(job).computeGpu == (job.step + 1) * Sum(job.spec.compute)
  {
    StepTook(job, now);
    hide SpecOk, BucketCount, SumOf, Sum, ReadyOk;
    Distribute(Sum(job.spec.compute), job.step, 1);
    forall w | 0 <= w < job.W() ensures job.allocatedAt.value + (job.step + 1) * job.spec.compute[w] <= now {
      assert (job.step + 1) * job.spec.compute[w] <= now - job.allocatedAt.value;
    }
  }

  lemma StepFits(job: Job, now: nat)
    requires JobOk(job, now) && job.state.Active() && job.active.Some? && job.completedBuckets + 1 == job.buckets
    ensures job.allocatedAt.Some? && job.allocatedAt.value <= now
    ensures (job.step + 1) * Sum(job.spec.compute) <= job.W() * (now - job.allocatedAt.value)
  {
    hide JobOk, Sum;
    StepTook(job, now);
    SumScaled(job.spec.compute, job.step + 1, now - job.allocatedAt.value);
  }

  lemma StepTook(job: Job, now: nat)
    requires JobOk(job, now) && job.state.Active() && job.active.Some? && job.completedBuckets + 1 == job.buckets
    ensures job.allocatedAt.Some? && job.allocatedAt.value <= now
    ensures forall w :: 0 <= w < job.W() ==> (job.step + 1) * job.spec.compute[w] <= now - job.allocatedAt.value
  {
    AllFired(job, now);
    hide SpecOk, BucketCount, Sum, Fired;
    forall w | 0 <= w < job.W() ensures (job.step + 1) * job.spec.compute[w] <= now - job.allocatedAt.value {
      assert job.events[w][job.PerWorker() - 1] == None;
      Distribute(job.spec.compute[w], job.step, 1);
    }
  }

  /** What every worker spends within a span, all of them spend within the workers times the span. */
  lemma {:induction false} SumScaled(compute: seq<nat>, steps: nat, span: nat)
    requires forall w :: 0 <= w < |compute| ==> steps * compute[w] <= span
    ensures steps * Sum(compute) <= |compute| * span
  {
    if |compute| > 0 {
      var last := |compute| - 1;
      SumScaled(compute[..last], steps, span);
      assert steps * Sum(compute) == steps * Sum(compute[..last]) + steps * compute[last];
      assert |compute| * span == last * span + span;
    }
  }

  lemma Distribute(a: nat, b: nat, c: nat)
    ensures a * (b + c) == a * b + a * c && a * 1 == a
  {
  }

  // GPU time

  /** What the workers have computed of a step that began `elapsed` ago. */
  function StepCompute(compute: seq<nat>, elapsed: nat): nat {
    if |compute| == 0 then 0
    else
      var d := compute[|compute| - 1];
      StepCompute(compute[..|compute| - 1], elapsed) + (if d < elapsed then d else elapsed)
  }

  lemma {:induction false} StepComputeBounds(compute: seq<nat>, elapsed: nat, steps: nat, before: nat)
    requires forall w :: 0 <= w < |compute| ==> steps * compute[w] <= before
    ensures steps * Sum(compute) + StepCompute(compute, elapsed) <= (before + elapsed) * |compute|
    ensures StepCompute(compute, elapsed) <= Sum(compute)
  {
    if |compute| > 0 {
      var last := |compute| - 1;
      StepComputeBounds(compute[..last], elapsed, steps, before);
      Distribute(steps, Sum(compute[..last]), compute[last]);
      Distribute(before + elapsed, last, 1);
    }
  }

  /** `finish`. */
  function Ended(job: Job, state: State, compute: nat, now: nat): Job {
    job.(state := state, finished := Some(now), arrivalEvent := None, computeGpu := compute)
  }

  lemma EndsUnplaced(job: Job, state: State, now: nat)
    requires IdleOk(job, now) && state.Terminal() && !state.Succeeded?
    ensures EndedOk(Ended(job, state, job.computeGpu, now))
  {
  }

  lemma EndsEarly(job: Job, state: State, now: nat)
    requires StepOk(job) && ClockOk(job, now) && state.Terminal() && !state.Succeeded?
    requires job.stepStarted <= now
    ensures EndedOk(Ended(job, state, job.computeGpu + StepCompute(job.spec.compute, now - job.stepStarted), now))
  {
    hide ReadyOk, StepCompute, Sum;
    StepComputeBounds(job.spec.compute, now - job.stepStarted, job.step, job.stepStarted - job.allocatedAt.value);
  }

  lemma EndsWell(job: Job, now: nat)
    requires JobOk(job, now) && job.state.Active() && job.active.Some? && job.completedBuckets + 1 == job.buckets
    requires job.step + 1 == job.spec.steps
    ensures EndedOk(Ended(WithStepDone(job), State.Succeeded, WithStepDone(job).computeGpu, now))
  {
    hide ReadyOk, SumOf, Sum;
    StepDone(job, now);
    StepFits(job, now);
  }
}
