/** What every step of the workload engine keeps, over all jobs at once. */
module ClusterModel {
  import opened Prelude
  import opened Events
  import opened JobState
  import opened JobSteps
  import opened Placements
  import opened Inventory
  import opened RingState
  import opened RingTables
  import opened TransportState
  import opened Cluster

  datatype Jobs = Jobs(
    jobs: seq<Job>, assignments: map<nat, nat>, collectives: map<nat, nat>, view: Option<seq<Resource>>,
    open: set<nat>, calm: bool)

  ghost predicate OthersOk(jobs: seq<Job>, now: nat, j: nat) {
    forall k :: 0 <= k < |jobs| && k != j ==> JobOk(jobs[k], now)
  }

  /** Everything but the inner state of job j. */
  ghost predicate AllBut(s: Jobs, live: EventTable, now: nat, count: nat, consumed: seq<CollectiveResult>, j: nat) {
    && OthersOk(s.jobs, now, j)
    && EventsOk(s.jobs, s.view, live)
    && OwnershipOk(s.jobs, s.assignments, s.view)
    && CollectivesOk(s.jobs, s.collectives, count, consumed)
    && AdmissionOk(s.jobs, s.view, s.open)
    && PinnedOk(s.jobs, s.view)
    && CalmOk(s.calm, live)
  }

  /** In a calm run no state change of the topology is pending. */
  ghost predicate CalmOk(calm: bool, live: EventTable) {
    calm ==> forall e :: e in live ==> !IsStateChange(live[e].payload)
  }

  lemma CalmMine(calm: bool, live: EventTable, live': EventTable, j: nat)
    requires CalmOk(calm, live) && OnlyMine(live, live', j)
    ensures CalmOk(calm, live')
  {
    assert forall e :: e in live' && IsStateChange(live'[e].payload) ==> e in live;
  }

  lemma CalmLess(calm: bool, live: EventTable, event: Event)
    requires CalmOk(calm, live[event.id := event])
    ensures event.id !in live ==> CalmOk(calm, live)
    ensures calm ==> !IsStateChange(event.payload)
  {
    var before := live[event.id := event];
    assert before[event.id] == event;
    assert forall e :: e in live && e != event.id ==> before[e] == live[e];
  }

  /** Without a scheduler every job names its workers. */
  ghost predicate PinnedOk(jobs: seq<Job>, view: Option<seq<Resource>>) {
    view.None? ==> forall j :: 0 <= j < |jobs| ==> |jobs[j].spec.workers| == jobs[j].W()
  }

  ghost predicate AllOk(s: Jobs, live: EventTable, now: nat, count: nat, consumed: seq<CollectiveResult>) {
    AllBut(s, live, now, count, consumed, |s.jobs|)
  }

  lemma Whole(s: Jobs, live: EventTable, now: nat, count: nat, consumed: seq<CollectiveResult>, j: nat)
    requires AllBut(s, live, now, count, consumed, j) && j < |s.jobs| && JobOk(s.jobs[j], now)
    ensures AllOk(s, live, now, count, consumed)
  {
    hide JobOk, EventsOk, OwnershipOk, CollectivesOk, AdmissionOk, CalmOk;
  }

  lemma Part(s: Jobs, live: EventTable, now: nat, count: nat, consumed: seq<CollectiveResult>, j: nat)
    requires AllOk(s, live, now, count, consumed) && j < |s.jobs|
    ensures AllBut(s, live, now, count, consumed, j) && JobOk(s.jobs[j], now)
  {
    hide JobOk, EventsOk, OwnershipOk, CollectivesOk, AdmissionOk, CalmOk;
  }

  /** Time passes. */
  lemma Later(s: Jobs, live: EventTable, now: nat, count: nat, consumed: seq<CollectiveResult>, later: nat)
    requires AllOk(s, live, now, count, consumed) && now <= later
    ensures AllOk(s, live, later, count, consumed)
  {
    hide JobOk, EventsOk, OwnershipOk, CollectivesOk, AdmissionOk, CalmOk;
    forall k | 0 <= k < |s.jobs| ensures JobOk(s.jobs[k], later) {
      JobLater(s.jobs[k], now, later);
    }
  }

  /** Events of other runtimes come and go. */
  ghost predicate OnlyOthers(live: EventTable, live': EventTable) {
    && (forall e :: e in live && (live[e].payload.Workload? || live[e].payload.NoOp?) ==>
          e in live' && live'[e] == live[e])
    && (forall e :: e in live' && (live'[e].payload.Workload? || live'[e].payload.NoOp?) ==>
          e in live && live[e] == live'[e])
  }

  lemma EventsFrame(jobs: seq<Job>, view: Option<seq<Resource>>, live: EventTable, live': EventTable)
    requires EventsOk(jobs, view, live) && OnlyOthers(live, live')
    ensures EventsOk(jobs, view, live')
  {
    forall j | 0 <= j < |jobs| ensures JobEventsOk(j, jobs[j], live') {
      JobEventsFrame(j, jobs[j], live, live');
    }
    hide JobEventsOk;
    forall e | e in live' && live'[e].payload.Workload? ensures OwnedEvent(jobs, view, e, live'[e].payload) {
      assert OwnedEvent(jobs, view, e, live[e].payload);
    }
    hide OwnedEvent;
  }

  lemma JobEventsFrame(j: nat, job: Job, live: EventTable, live': EventTable)
    requires JobEventsOk(j, job, live) && OnlyOthers(live, live')
    ensures JobEventsOk(j, job, live')
  {
    if job.state.Active() {
      forall w, i | 0 <= w < job.W() && 0 <= i < job.PerWorker() && job.events[w][i].Some?
        ensures Pends(j, job, w, i, live') {
        assert Pends(j, job, w, i, live);
      }
    }
  }

  lemma Elsewhere(s: Jobs, live: EventTable, now: nat, count: nat, consumed: seq<CollectiveResult>, j: nat,
                  live': EventTable)
    requires AllBut(s, live, now, count, consumed, j) && OnlyOthers(live, live') && CalmOk(s.calm, live')
    ensures AllBut(s, live', now, count, consumed, j)
  {
    hide JobOk, EventsOk, OwnershipOk, CollectivesOk, AdmissionOk, CalmOk;
    EventsFrame(s.jobs, s.view, live, live');
  }

  ghost function WithJob(s: Jobs, j: nat, job: Job): Jobs
    requires j < |s.jobs|
  {
    s.(jobs := s.jobs[j := job])
  }

  lemma OthersStay(s: Jobs, now: nat, j: nat, job: Job)
    requires OthersOk(s.jobs, now, j) && j < |s.jobs|
    ensures OthersOk(s.jobs[j := job], now, j)
  {
    hide JobOk;
  }

  // Compute

  /** A compute event of job j is dispatched. */
  lemma FireKeeps(s: Jobs, live: EventTable, now: nat, count: nat, consumed: seq<CollectiveResult>, event: Event)
    requires event.id !in live && event.timestamp == now && AllOk(s, live[event.id := event], now, count, consumed)
    requires event.payload.Workload? && event.payload.kind == ComputeReady
    ensures event.payload.job < |s.jobs|
    ensures var p := event.payload; var job := s.jobs[p.job];
            && job.state.Active() && Fires(job, p.worker, p.bucket) && p.step == job.step
            && job.events[p.worker][job.Column(p.bucket)] == Some(event.id)
            && (var job' := WithFired(job, p.worker, p.bucket);
                && AllBut(WithJob(s, p.job, job'), live, now, count, consumed, p.job)
                && StepOk(job') && ClockOk(job', now) && (job'.active.Some? ==> Settled(job')))
  {
    hide OwnershipOk, CollectivesOk, AdmissionOk, CalmOk, Fires, WithFired, StepOk, ClockOk, Settled;
    var p, before := event.payload, live[event.id := event];
    assert before[event.id] == event;
    assert OwnedEvent(s.jobs, s.view, event.id, p);
    Part(s, before, now, count, consumed, p.job);
    FireFinds(s.jobs, s.view, before, event.id);
    CalmLess(s.calm, live, event);
    var job := s.jobs[p.job];
    FiredFrame(job, p.worker, p.bucket);
    EventsFire(s.jobs, s.view, live, event);
    hide EventsOk, AllOk;
    FiringStep(job, p.worker, p.bucket, now);
    var job' := WithFired(job, p.worker, p.bucket);
    OwnersSame(s.jobs, s.assignments, s.view, p.job, job');
    CollectivesSame(s.jobs, s.collectives, count, consumed, p.job, job');
    AdmissionSame(s.jobs, s.view, s.open, p.job, job');
    OthersStay(s, now, p.job, job');
  }

  lemma FiringStep(job: Job, worker: nat, bucket: nat, now: nat)
    requires JobOk(job, now) && job.state.Active() && Fires(job, worker, bucket)
    requires bucket + 1 == job.buckets ==> job.stepStarted + job.spec.compute[worker] == now
    ensures StepOk(WithFired(job, worker, bucket)) && ClockOk(WithFired(job, worker, bucket), now)
    ensures job.active.Some? ==> Settled(WithFired(job, worker, bucket))
  {
    FiredStep(job, worker, bucket);
    FiredClock(job, worker, bucket, now);
    hide StepOk, ClockOk, Settled, WithFired;
  }

  lemma FiredFrame(job: Job, worker: nat, bucket: nat)
    requires Fires(job, worker, bucket)
    ensures worker < |job.events| && job.Column(bucket) < |job.events[worker]| && bucket < |job.ready|
    ensures var job' := WithFired(job, worker, bucket);
            job'.state.Active() && job.state.Active() && job'.spec == job.spec && job'.active == job.active
              && !job'.state.Waiting?
  {
  }

  /** A collective starts for job j's next bucket. */
  lemma StartKeeps(s: Jobs, live: EventTable, now: nat, count: nat, consumed: seq<CollectiveResult>, j: nat)
    requires AllBut(s, live, now, count, consumed, j) && j < |s.jobs|
    requires StepOk(s.jobs[j]) && ClockOk(s.jobs[j], now) && s.jobs[j].active == None
    requires s.jobs[j].ready[s.jobs[j].completedBuckets] == s.jobs[j].W()
    requires forall i :: 0 <= i < |consumed| ==> consumed[i].id < count
    ensures var s' := WithJob(s, j, WithCollective(s.jobs[j], count)).(collectives := s.collectives[count := j]);
            AllOk(s', live, now, count + 1, consumed)
  {
    hide EventsOk, OwnershipOk, CollectivesOk, AdmissionOk, CalmOk, ClockOk, JobOk;
    var job := s.jobs[j];
    var job' := WithCollective(job, count);
    CollectiveStarts(job, count, now);
    assert job.state.Active();
    hide StepOk;
    EventsSame(s.jobs, s.view, live, j, job');
    OwnersSame(s.jobs, s.assignments, s.view, j, job');
    CollectiveBegins(s.jobs, s.collectives, count, consumed, j, job');
    AdmissionSame(s.jobs, s.view, s.open, j, job');
    OthersStay(s, now, j, job');
    Whole(WithJob(s, j, job').(collectives := s.collectives[count := j]), live, now, count + 1, consumed, j);
  }

  /** Nothing to start: the next bucket is not ready everywhere. */
  lemma NotYetReady(s: Jobs, live: EventTable, now: nat, count: nat, consumed: seq<CollectiveResult>, j: nat)
    requires AllBut(s, live, now, count, consumed, j) && j < |s.jobs|
    requires StepOk(s.jobs[j]) && ClockOk(s.jobs[j], now)
    requires s.jobs[j].active.Some? ==> Settled(s.jobs[j])
    requires s.jobs[j].active == None ==> s.jobs[j].ready[s.jobs[j].completedBuckets] != s.jobs[j].W()
    ensures AllOk(s, live, now, count, consumed)
  {
    hide EventsOk, OwnershipOk, CollectivesOk, AdmissionOk, CalmOk, ClockOk, SpecOk, ReadyOk;
    assert JobOk(s.jobs[j], now);
    Whole(s, live, now, count, consumed, j);
  }

  // Results

  /** A bucket's collective succeeded and more buckets of the step are left. */
  lemma BucketKeeps(s: Jobs, live: EventTable, now: nat, count: nat, consumed: seq<CollectiveResult>,
                    result: CollectiveResult)
    requires AllOk(s, live, now, count, consumed) && result.id in s.collectives && s.collectives[result.id] < |s.jobs|
    requires var job := s.jobs[s.collectives[result.id]];
             job.state.Active() && job.active == Some(result.id) && job.completedBuckets + 1 < job.buckets
    ensures var j := s.collectives[result.id]; var job := WithBucketDone(s.jobs[j]);
            && StepOk(job) && ClockOk(job, now)
            && AllBut(WithJob(s, j, job).(collectives := s.collectives - {result.id}), live, now, count,
                      consumed + [result], j)
  {
    hide EventsOk, OwnershipOk, CollectivesOk, AdmissionOk, CalmOk, ClockOk, JobOk, StepOk;
    var j := s.collectives[result.id];
    Part(s, live, now, count, consumed, j);
    var job := WithBucketDone(s.jobs[j]);
    BucketDone(s.jobs[j], now);
    EventsSame(s.jobs, s.view, live, j, job);
    OwnersSame(s.jobs, s.assignments, s.view, j, job);
    CollectiveEnds(s.jobs, s.collectives, count, consumed, result, job);
    AdmissionSame(s.jobs, s.view, s.open, j, job);
    OthersStay(s, now, j, job);
  }

  /** The last bucket's collective succeeded: the step is over and no event of it is pending. */
  lemma StepKeeps(s: Jobs, live: EventTable, now: nat, count: nat, consumed: seq<CollectiveResult>,
                  result: CollectiveResult)
    requires AllOk(s, live, now, count, consumed) && result.id in s.collectives && s.collectives[result.id] < |s.jobs|
    requires var job := s.jobs[s.collectives[result.id]];
             job.state.Active() && job.active == Some(result.id) && job.completedBuckets + 1 == job.buckets
    ensures var j := s.collectives[result.id]; var job := WithStepDone(s.jobs[j]);
            && Silent(live, j) && (job.step < job.spec.steps ==> CanBegin(job, now))
            && AllBut(WithJob(s, j, job).(collectives := s.collectives - {result.id}), live, now, count,
                      consumed + [result], j)
  {
    hide OwnershipOk, CollectivesOk, AdmissionOk, CalmOk, JobOk, SumOf, Sum, CanBegin;
    var j := s.collectives[result.id];
    Part(s, live, now, count, consumed, j);
    AllFired(s.jobs[j], now);
    StepRows(s.jobs[j], now);
    StepDone(s.jobs[j], now);
    var job := WithStepDone(s.jobs[j]);
    NoneAwaited(s.jobs, s.view, live, j);
    assert OnlyMine(live, live, j) && JobEventsOk(j, job, live) by {
      hide EventsOk, Silent;
    }
    EventsUpdate(s.jobs, s.view, live, j, job, live);
    hide EventsOk, AllOk, Silent;
    OwnersSame(s.jobs, s.assignments, s.view, j, job);
    CollectiveEnds(s.jobs, s.collectives, count, consumed, result, job);
    AdmissionSame(s.jobs, s.view, s.open, j, job);
    OthersStay(s, now, j, job);
  }

  lemma StepRows(job: Job, now: nat)
    requires JobOk(job, now) && job.state.Active()
    ensures RowsOk(job) && job.step < job.spec.steps && job.arrivalEvent == None
  {
  }

  /** A job that has ended learns that its cancelled collective is over. */
  lemma LateResultKeeps(s: Jobs, live: EventTable, now: nat, count: nat, consumed: seq<CollectiveResult>,
                        result: CollectiveResult)
    requires AllOk(s, live, now, count, consumed) && result.id in s.collectives && s.collectives[result.id] < |s.jobs|
    requires s.jobs[s.collectives[result.id]].state.Terminal()
    ensures var j := s.collectives[result.id];
            AllOk(WithJob(s, j, s.jobs[j].(active := None)).(collectives := s.collectives - {result.id}), live, now,
                  count,
                  consumed + [result])
  {
    hide EventsOk, OwnershipOk, CollectivesOk, AdmissionOk, CalmOk;
    var j := s.collectives[result.id];
    Part(s, live, now, count, consumed, j);
    var job := s.jobs[j].(active := None);
    assert JobOk(job, now);
    hide JobOk;
    EventsSame(s.jobs, s.view, live, j, job);
    OwnersSame(s.jobs, s.assignments, s.view, j, job);
    CollectiveEnds(s.jobs, s.collectives, count, consumed, result, job);
    AdmissionSame(s.jobs, s.view, s.open, j, job);
    OthersStay(s, now, j, job);
    Whole(WithJob(s, j, job).(collectives := s.collectives - {result.id}), live, now, count, consumed + [result], j);
  }

  /** The collective of an active job failed: the job no longer waits for it and is about to end. */
  lemma FailedResultKeeps(s: Jobs, live: EventTable, now: nat, count: nat, consumed: seq<CollectiveResult>,
                          result: CollectiveResult)
    requires AllOk(s, live, now, count, consumed) && result.id in s.collectives && s.collectives[result.id] < |s.jobs|
    requires s.jobs[s.collectives[result.id]].state.Active()
    ensures var j := s.collectives[result.id];
            && AllBut(WithJob(s, j, s.jobs[j].(active := None)).(collectives := s.collectives - {result.id}), live, now,
                      count,
                      consumed + [result], j)
            && StepOk(s.jobs[j].(active := None)) && ClockOk(s.jobs[j].(active := None), now)
  {
    hide EventsOk, OwnershipOk, CollectivesOk, AdmissionOk, CalmOk, SpecOk, Fired, Sum, BucketCount;
    var j := s.collectives[result.id];
    Part(s, live, now, count, consumed, j);
    var job := s.jobs[j].(active := None);
    assert ReadyOk(job);
    hide ReadyOk;
    EventsSame(s.jobs, s.view, live, j, job);
    OwnersSame(s.jobs, s.assignments, s.view, j, job);
    CollectiveEnds(s.jobs, s.collectives, count, consumed, result, job);
    AdmissionSame(s.jobs, s.view, s.open, j, job);
    OthersStay(s, now, j, job);
  }

  // Beginning a step

  /** The next step of a job that is already placed. */
  lemma BeginKeeps(s: Jobs, live: EventTable, now: nat, count: nat, consumed: seq<CollectiveResult>, j: nat,
                   rows: seq<Row>,
                   live': EventTable)
    requires AllBut(s, live, now, count, consumed, j) && j < |s.jobs| && s.jobs[j].state.Active()
    requires CanBegin(s.jobs[j], now) && RowsScheduled(j, s.jobs[j], rows, now, live, live')
    ensures AllOk(WithJob(s, j, Begun(s.jobs[j], rows, now)), live', now, count, consumed)
  {
    var job := s.jobs[j];
    var job' := Begun(job, rows, now);
    hide OwnershipOk, CollectivesOk, AdmissionOk, CalmOk, EventsOk;
    BegunOk(job, rows, now);
    EventsBegin(s.jobs, s.view, live, j, job, rows, now, live');
    CalmMine(s.calm, live, live', j);
    hide JobOk, CanBegin, RowsScheduled;
    OwnersSame(s.jobs, s.assignments, s.view, j, job');
    CollectivesSame(s.jobs, s.collectives, count, consumed, j, job');
    AdmissionSame(s.jobs, s.view, s.open, j, job');
    OthersStay(s, now, j, job');
    Whole(WithJob(s, j, job'), live', now, count, consumed, j);
  }

  function Placed(job: Job, workers: seq<nat>, now: nat): Job {
    job.(spec := job.spec.(workers := workers), placed := true, allocatedAt := Some(now))
  }

  lemma PlacedCanBegin(job: Job, workers: seq<nat>, now: nat)
    requires IdleOk(job, now) && job.arrivalEvent == None && job.spec.arrival <= now && |workers| == job.W()
             && Distinct(workers)
    ensures CanBegin(Placed(job, workers, now), now) && BucketCount(job.spec) > 0
  {
    BucketsPositive(job.spec);
  }

  ghost function OwnedView(view: Option<seq<Resource>>, workers: seq<nat>, j: nat): Option<seq<Resource>> {
    if view.None? then None else Some(Owned(view.value, ToSet(workers), j))
  }

  /** A job can be placed on these GPUs: nobody owns them, and they are free in the inventory. */
  ghost predicate CanPlace(s: Jobs, now: nat, j: nat, workers: seq<nat>) {
    && j < |s.jobs| && IdleOk(s.jobs[j], now) && s.jobs[j].arrivalEvent == None && s.jobs[j].spec.arrival <= now
    && |workers| == s.jobs[j].W() && Distinct(workers)
    && (forall w :: 0 <= w < |workers| ==> workers[w] !in s.assignments)
    && (s.view.Some? ==> Candidate(s.view.value, workers, |workers|))
  }

  /** The first step of a job that is being placed. */
  ghost function WithPlaced(s: Jobs, now: nat, j: nat, workers: seq<nat>, rows: seq<Row>): Jobs
    requires j < |s.jobs|
  {
    Jobs(s.jobs[j := Begun(Placed(s.jobs[j], workers, now), rows, now)], Assigned(s.assignments, workers, j),
         s.collectives,
         OwnedView(s.view, workers, j), s.open, s.calm)
  }

  lemma PlaceJob(s: Jobs, live: EventTable, now: nat, j: nat, workers: seq<nat>, rows: seq<Row>, live': EventTable)
    requires CanPlace(s, now, j, workers) && EventsOk(s.jobs, s.view, live)
    requires RowsScheduled(j, Placed(s.jobs[j], workers, now), rows, now, live, live')
    ensures JobOk(Begun(Placed(s.jobs[j], workers, now), rows, now), now)
    ensures EventsOk(WithPlaced(s, now, j, workers, rows).jobs, OwnedView(s.view, workers, j), live')
  {
    var job := Placed(s.jobs[j], workers, now);
    hide EventsOk, Owned, Candidate;
    PlacedCanBegin(s.jobs[j], workers, now);
    BegunOk(job, rows, now);
    hide JobOk, CanBegin, IdleOk;
    EventsBegin(s.jobs, s.view, live, j, job, rows, now, live');
    hide RowsScheduled;
    EventsSameGpus(s.jobs[j := Begun(job, rows, now)], s.view, OwnedView(s.view, workers, j), live');
  }

  lemma PlaceRest(s: Jobs, now: nat, j: nat, workers: seq<nat>, rows: seq<Row>, count: nat,
                  consumed: seq<CollectiveResult>)
    requires CanPlace(s, now, j, workers) && OwnershipOk(s.jobs, s.assignments, s.view)
    requires CollectivesOk(s.jobs, s.collectives, count, consumed) && AdmissionOk(s.jobs, s.view, s.open)
    ensures var s' := WithPlaced(s, now, j, workers, rows);
            && OwnershipOk(s'.jobs, s'.assignments, s'.view) && CollectivesOk(s'.jobs, s'.collectives, count, consumed)
            && AdmissionOk(s'.jobs, s'.view, s'.open)
  {
    var job := Begun(Placed(s.jobs[j], workers, now), rows, now);
    assert !s.jobs[j].state.Active();
    hide OwnershipOk, CollectivesOk, AdmissionOk, CalmOk, Assigned, Owned, Candidate, IdleOk, Distinct;
    OwnersPlace(s.jobs, s.assignments, s.view, j, job, Assigned(s.assignments, workers, j));
    CollectivesSame(s.jobs, s.collectives, count, consumed, j, job);
    AdmissionSame(s.jobs, s.view, s.open, j, job);
    if s.view.Some? {
      OwnedShrinks(s.view.value, ToSet(workers), j);
    }
    AdmissionShrinks(s.jobs[j := job], s.view, OwnedView(s.view, workers, j), s.open);
  }

  lemma RowsCalm(calm: bool, j: nat, job: Job, rows: seq<Row>, now: nat, live: EventTable, live': EventTable)
    requires CalmOk(calm, live) && RowsScheduled(j, job, rows, now, live, live')
    ensures CalmOk(calm, live')
  {
    hide RowEvent, InRows, CalmOk;
    CalmMine(calm, live, live', j);
  }

  lemma PlaceKeeps(s: Jobs, live: EventTable, now: nat, count: nat, consumed: seq<CollectiveResult>, j: nat,
                   workers: seq<nat>,
                   rows: seq<Row>, live': EventTable)
    requires AllBut(s, live, now, count, consumed, j) && CanPlace(s, now, j, workers)
    requires RowsScheduled(j, Placed(s.jobs[j], workers, now), rows, now, live, live')
    ensures AllOk(WithPlaced(s, now, j, workers, rows), live', now, count, consumed)
  {
    hide JobOk, EventsOk, OwnershipOk, CollectivesOk, AdmissionOk, CalmOk, RowsScheduled, IdleOk, Candidate, Distinct,
         Assigned, Owned;
    PlaceJob(s, live, now, j, workers, rows, live');
    RowsCalm(s.calm, j, Placed(s.jobs[j], workers, now), rows, now, live, live');
    PlaceRest(s, now, j, workers, rows, count, consumed);
    OthersStay(s, now, j, Begun(Placed(s.jobs[j], workers, now), rows, now));
    Whole(WithPlaced(s, now, j, workers, rows), live', now, count, consumed, j);
  }

  ghost predicate SameGpuList(view: Option<seq<Resource>>, view': Option<seq<Resource>>) {
    && (view.Some? <==> view'.Some?)
    && (view.Some? ==> |view'.value| == |view.value|
                       && forall i :: 0 <= i < |view.value| ==> view'.value[i].gpu == view.value[i].gpu)
  }

  lemma EventsSameGpus(jobs: seq<Job>, view: Option<seq<Resource>>, view': Option<seq<Resource>>, live: EventTable)
    requires EventsOk(jobs, view, live) && SameGpuList(view, view')
    ensures EventsOk(jobs, view', live)
  {
    hide JobEventsOk, Awaited;
    forall e | e in live && live[e].payload.Workload? ensures OwnedEvent(jobs, view', e, live[e].payload) {
      assert OwnedEvent(jobs, view, e, live[e].payload);
      if view.Some? {
        SameGpus(view.value, view'.value, live[e].payload.worker);
      }
    }
  }

  /** A pass that places one job leaves the others as unplaceable as they were. */
  lemma AdmissionShrinks(jobs: seq<Job>, view: Option<seq<Resource>>, view': Option<seq<Resource>>, open: set<nat>)
    requires AdmissionOk(jobs, view, open) && (view.Some? <==> view'.Some?)
    requires view.Some? ==> Shrunk(view.value, view'.value)
    ensures AdmissionOk(jobs, view', open)
  {
    forall j | 0 <= j < |jobs| && jobs[j].state.Waiting? && j !in open
      ensures view'.Some? && !Placeable(j, jobs[j].spec, view'.value)
    {
      if Placeable(j, jobs[j].spec, view'.value) {
        UnplaceableStays(j, jobs[j].spec, view.value, view'.value);
      }
    }
    hide Placeable;
  }

  // Ending a job

  ghost function ReleasedView(view: Option<seq<Resource>>, j: nat): Option<seq<Resource>> {
    if view.None? then None else Some(Released(view.value, j))
  }

  /** The state after job j has ended; a job that owned GPUs opens admission to everyone. */
  ghost function WithEnded(s: Jobs, j: nat, job: Job, assignments: map<nat, nat>): Jobs
    requires j < |s.jobs|
  {
    Jobs(s.jobs[j := job], assignments, s.collectives, ReleasedView(s.view, j),
         if s.jobs[j].state.Active() then Everyone(|s.jobs|) else s.open, s.calm)
  }

  lemma EndKeeps(s: Jobs, live: EventTable, now: nat, count: nat, consumed: seq<CollectiveResult>, j: nat, job: Job,
                 assignments: map<nat, nat>, live': EventTable)
    requires AllBut(s, live, now, count, consumed, j) && j < |s.jobs| && !s.jobs[j].state.Terminal()
    requires EndedOk(job) && job.W() == s.jobs[j].W() && job.active == s.jobs[j].active
             && job.spec.workers == s.jobs[j].spec.workers
    requires OnlyMine(live, live', j) && Silent(live', j)
    requires if s.jobs[j].state.Active() then Unassigned(s.assignments, assignments, s.jobs[j].spec.workers)
             else assignments == s.assignments
    ensures AllOk(WithEnded(s, j, job, assignments), live', now, count, consumed)
    ensures Healthy(s.view, Some(j)) ==> Healthy(ReleasedView(s.view, j), None)
    ensures !s.jobs[j].state.Active() ==> ReleasedView(s.view, j) == s.view
  {
    hide JobOk, EventsOk, OwnershipOk, CollectivesOk, AdmissionOk, CalmOk, Silent, OnlyMine, Released, Unassigned;
    assert job.arrivalEvent == None && job.state.Terminal();
    EndedIsOk(job, now);
    hide EndedOk;
    EventsEnd(s.jobs, s.view, live, j, job, live');
    CalmMine(s.calm, live, live', j);
    EventsSameGpus(s.jobs[j := job], s.view, ReleasedView(s.view, j), live');
    EndOwners(s, j, job, assignments);
    CollectivesSame(s.jobs, s.collectives, count, consumed, j, job);
    OthersStay(s, now, j, job);
    Whole(WithEnded(s, j, job, assignments), live', now, count, consumed, j);
  }

  lemma EndedIsOk(job: Job, now: nat)
    requires EndedOk(job)
    ensures JobOk(job, now)
  {
  }

  lemma EndOwners(s: Jobs, j: nat, job: Job, assignments: map<nat, nat>)
    requires j < |s.jobs| && job.state.Terminal() && job.spec.workers == s.jobs[j].spec.workers
    requires OwnershipOk(s.jobs, s.assignments, s.view) && AdmissionOk(s.jobs, s.view, s.open)
    requires if s.jobs[j].state.Active() then Unassigned(s.assignments, assignments, s.jobs[j].spec.workers)
             else assignments == s.assignments
    ensures var s' := WithEnded(s, j, job, assignments);
            && OwnershipOk(s'.jobs, s'.assignments, s'.view) && AdmissionOk(s'.jobs, s'.view, s'.open)
            && (Healthy(s.view, Some(j)) ==> Healthy(s'.view, None))
            && (!s.jobs[j].state.Active() ==> ReleasedView(s.view, j) == s.view)
  {
    hide OwnershipOk, AdmissionOk, CalmOk, Released, Unassigned, Everyone;
    AdmissionSame(s.jobs, s.view, s.open, j, job);
    if s.jobs[j].state.Active() {
      OwnersEnd(s.jobs, s.assignments, s.view, j, job, assignments);
      AdmissionDue(s.jobs[j := job], s.view, s.open, ReleasedView(s.view, j));
    } else {
      OwnersSame(s.jobs, s.assignments, s.view, j, job);
      if s.view.Some? {
        OwnersNone(s.jobs, s.assignments, s.view.value, j);
      }
    }
  }

  // Arrival

  /** An arrival event is dispatched: its job was scheduled and waits for nothing else. */
  lemma ArrivalKeeps(s: Jobs, live: EventTable, now: nat, count: nat, consumed: seq<CollectiveResult>, event: Event)
    requires event.id !in live && event.timestamp == now && AllOk(s, live[event.id := event], now, count, consumed)
    requires event.payload.Workload? && event.payload.kind == Arrival
    ensures event.payload.job < |s.jobs|
    ensures var j := event.payload.job; var job := s.jobs[j].(arrivalEvent := None);
            && s.jobs[j].arrivalEvent == Some(event.id) && s.jobs[j].state.Scheduled?
            && IdleOk(job, now) && job.spec.arrival == now && Silent(live, j)
            && AllBut(WithJob(s, j, job), live, now, count, consumed, j)
  {
    hide OwnershipOk, CollectivesOk, AdmissionOk, CalmOk;
    var j, before := event.payload.job, live[event.id := event];
    assert before[event.id] == event;
    assert OwnedEvent(s.jobs, s.view, event.id, event.payload);
    Part(s, before, now, count, consumed, j);
    var job := s.jobs[j].(arrivalEvent := None);
    assert JobEventsOk(j, s.jobs[j], before);
    ArrivalSilent(s, before, live, event);
    hide EventsOk, AllOk, SpecOk;
    assert OnlyMine(before, live, j);
    CalmLess(s.calm, live, event);
    EventsEnd(s.jobs, s.view, before, j, job, live);
    OwnersSame(s.jobs, s.assignments, s.view, j, job);
    CollectivesSame(s.jobs, s.collectives, count, consumed, j, job);
    AdmissionSame(s.jobs, s.view, s.open, j, job);
    OthersStay(s, now, j, job);
  }

  lemma ArrivalSilent(s: Jobs, before: EventTable, live: EventTable, event: Event)
    requires EventsOk(s.jobs, s.view, before) && event.payload.Workload? && event.payload.job < |s.jobs|
    requires s.jobs[event.payload.job].arrivalEvent == Some(event.id) && s.jobs[event.payload.job].state.Scheduled?
    requires before == live[event.id := event] && event.id !in live
    ensures Silent(live, event.payload.job)
  {
    forall e | e in live ensures !Mine(event.payload.job, live[e].payload) {
      assert before[e] == live[e];
      if live[e].payload.Workload? {
        assert OwnedEvent(s.jobs, s.view, e, before[e].payload);
      }
    }
  }

  /** A job joins those waiting for GPUs. */
  lemma WaitKeeps(s: Jobs, live: EventTable, now: nat, count: nat, consumed: seq<CollectiveResult>, j: nat)
    requires AllBut(s, live, now, count, consumed, j) && j < |s.jobs| && s.view.Some?
    requires IdleOk(s.jobs[j], now) && s.jobs[j].arrivalEvent == None && s.jobs[j].spec.arrival <= now
    ensures AllOk(WithJob(s, j, s.jobs[j].(state := State.Waiting)).(open := Everyone(|s.jobs|)), live, now, count,
                  consumed)
  {
    hide EventsOk, OwnershipOk, CollectivesOk, SpecOk;
    var job := s.jobs[j].(state := State.Waiting);
    assert JobOk(job, now);
    hide JobOk;
    EventsSame(s.jobs, s.view, live, j, job);
    OwnersSame(s.jobs, s.assignments, s.view, j, job);
    CollectivesSame(s.jobs, s.collectives, count, consumed, j, job);
    OthersStay(s, now, j, job);
    hide Placeable, IdleOk;
    Whole(WithJob(s, j, job).(open := Everyone(|s.jobs|)), live, now, count, consumed, j);
  }

  // GPU health

  lemma HealthKeeps(s: Jobs, live: EventTable, now: nat, count: nat, consumed: seq<CollectiveResult>, gpu: nat,
                    healthy: bool)
    requires AllOk(s, live, now, count, consumed) && s.view.Some?
    ensures var view := WithHealth(s.view.value, gpu, healthy);
            && AllOk(s.(view := Some(view), open := Everyone(|s.jobs|)), live, now, count, consumed)
            && (!healthy ==> AllOk(s.(view := Some(view)), live, now, count, consumed))
  {
    hide EventsOk, OwnershipOk, CollectivesOk, AdmissionOk, CalmOk, JobOk, Everyone;
    var view := WithHealth(s.view.value, gpu, healthy);
    HealthOwners(s.jobs, s.assignments, s.view.value, gpu, healthy);
    EventsSameGpus(s.jobs, s.view, Some(view), live);
    AdmissionDue(s.jobs, s.view, s.open, Some(view));
    if !healthy {
      AdmissionShrinks(s.jobs, s.view, Some(view), s.open);
    }
  }

  lemma HealthOwners(jobs: seq<Job>, assignments: map<nat, nat>, view: seq<Resource>, gpu: nat, healthy: bool)
    requires OwnershipOk(jobs, assignments, Some(view))
    ensures OwnershipOk(jobs, assignments, Some(WithHealth(view, gpu, healthy)))
  {
    hide Has;
    var view' := WithHealth(view, gpu, healthy);
    forall g | g in assignments ensures Has(view', g) {
      SameGpus(view, view', g);
    }
    hide Owns, HoldsAll;
  }

  /** The owner of a GPU is an active job. */
  lemma OwnerIsActive(s: Jobs, view: seq<Resource>, i: nat)
    requires OwnershipOk(s.jobs, s.assignments, Some(view)) && i < |view| && view[i].owner.Some?
    ensures view[i].owner.value < |s.jobs| && s.jobs[view[i].owner.value].state.Active()
  {
    assert Owns(s.jobs, s.assignments[view[i].gpu], view[i].gpu);
  }

  // Admission

  /** A waiting job was found unplaceable, or is no longer waiting. */
  lemma Considered(s: Jobs, live: EventTable, now: nat, count: nat, consumed: seq<CollectiveResult>, j: nat)
    requires AllOk(s, live, now, count, consumed) && j < |s.jobs| && s.view.Some?
    requires !s.jobs[j].state.Waiting? || !Placeable(j, s.jobs[j].spec, s.view.value)
    ensures AllOk(s.(open := s.open - {j}), live, now, count, consumed)
  {
    hide JobOk, EventsOk, OwnershipOk, CollectivesOk, Placeable;
  }

  // When everything is quiet

  /** With no workload event pending and every result consumed, every job has ended or waits for GPUs. */
  lemma QuietJobs(s: Jobs, live: EventTable, now: nat, count: nat, consumed: seq<CollectiveResult>)
    requires AllOk(s, live, now, count, consumed)
    requires forall e :: e in live ==> !live[e].payload.Workload?
    requires forall c :: 0 <= c < count ==> WasReported(c, consumed)
    ensures forall j :: 0 <= j < |s.jobs| ==> s.jobs[j].state.Terminal() || s.jobs[j].state.Waiting?
    ensures s.collectives == map[] && forall j :: 0 <= j < |s.jobs| ==> s.jobs[j].active == None
  {
    assert s.collectives.Keys == {};
    forall j | 0 <= j < |s.jobs| ensures s.jobs[j].state.Terminal() || s.jobs[j].state.Waiting? {
      assert JobOk(s.jobs[j], now) && JobEventsOk(j, s.jobs[j], live);
      assert s.jobs[j].active == None;
      hide EventsOk, OwnershipOk, CollectivesOk, AdmissionOk, CalmOk, OthersOk;
      QuietJob(j, s.jobs[j], live, now);
    }
  }

  lemma QuietJob(j: nat, job: Job, live: EventTable, now: nat)
    requires JobOk(job, now) && JobEventsOk(j, job, live) && job.active == None
    requires forall e :: e in live ==> !live[e].payload.Workload?
    ensures job.state.Terminal() || job.state.Waiting?
  {
    if job.state.Active() {
      NothingPends(j, job, live);
      FiredAtMost(job.events, job.Column(job.completedBuckets), job.W());
      hide SpecOk, ClockOk, Fired, Pends;
    }
  }

  lemma NothingPends(j: nat, job: Job, live: EventTable)
    requires JobEventsOk(j, job, live) && job.state.Active()
    requires forall e :: e in live ==> !live[e].payload.Workload?
    ensures forall w, i :: 0 <= w < job.W() && 0 <= i < job.PerWorker() ==> job.events[w][i] == None
  {
  }

  // The load of pending results

  /** An active job with a collective under way can consume its result. */
  lemma WeightPositive(job: Job, now: nat)
    requires JobOk(job, now) && job.state.Active() && job.active.Some?
    ensures Weight(job) >= 1 && job.completedBuckets + 1 <= |job.ready|
    ensures Weight(job) == ReadyAhead(job, job.completedBuckets + 1) + 1
  {
  }

  lemma WeightBucketDone(job: Job, c: Option<nat>, now: nat)
    requires JobOk(job, now) && job.state.Active() && job.active.Some? && job.completedBuckets + 1 < job.buckets
    ensures Weight(WithBucketDone(job)) < Weight(job)
    ensures c.Some? ==> Weight(WithCollective(WithBucketDone(job), c.value)) < Weight(job)
  {
    WeightPositive(job, now);
    AheadSame(job, WithBucketDone(job), job.completedBuckets + 1);
    if c.Some? {
      AheadSame(job, WithCollective(WithBucketDone(job), c.value), job.completedBuckets + 1);
    }
    hide ReadyAhead;
  }

  lemma WeightBegun(job: Job, rows: seq<Row>, now: nat)
    requires job.W() > 0
    ensures Weight(Begun(job, rows, now)) == 0
  {
    AheadNone(Begun(job, rows, now), 0);
  }

  // Control events

  /** A control event is dispatched. */
  lemma ControlKeeps(s: Jobs, live: EventTable, now: nat, count: nat, consumed: seq<CollectiveResult>, event: Event)
    requires event.id !in live && AllOk(s, live[event.id := event], now, count, consumed)
    requires event.payload.Workload? && event.payload.kind != Arrival && event.payload.kind != ComputeReady
    ensures AllOk(s, live, now, count, consumed) && ControlOk(s.jobs, s.view, event.payload)
  {
    hide JobOk, OwnershipOk, CollectivesOk, AdmissionOk, CalmOk;
    var before := live[event.id := event];
    assert before[event.id] == event;
    assert OwnedEvent(s.jobs, s.view, event.id, event.payload);
    CalmLess(s.calm, live, event);
    forall j | 0 <= j < |s.jobs| ensures JobEventsOk(j, s.jobs[j], live) {
      ControlElsewhere(j, s.jobs[j], live, event);
    }
    hide JobEventsOk;
    forall e | e in live && live[e].payload.Workload? ensures OwnedEvent(s.jobs, s.view, e, live[e].payload) {
      assert OwnedEvent(s.jobs, s.view, e, before[e].payload);
    }
    assert forall e :: e in live ==> before[e] == live[e];
    hide OwnedEvent;
  }

  lemma ControlElsewhere(j: nat, job: Job, live: EventTable, event: Event)
    requires JobEventsOk(j, job, live[event.id := event]) && event.id !in live && !Mine(j, event.payload)
    ensures JobEventsOk(j, job, live)
  {
    var before := live[event.id := event];
    if job.state.Active() {
      forall w, i | 0 <= w < job.W() && 0 <= i < job.PerWorker() && job.events[w][i].Some?
        ensures Pends(j, job, w, i, live) {
        assert Pends(j, job, w, i, before);
      }
    }
  }

  // Admission passes

  ghost function WaitingJobs(jobs: seq<Job>): set<nat> {
    set j | 0 <= j < |jobs| && jobs[j].state.Waiting?
  }

  /** Only waiting jobs need to be considered. */
  lemma OnlyWaiting(s: Jobs, live: EventTable, now: nat, count: nat, consumed: seq<CollectiveResult>)
    requires AllOk(s, live, now, count, consumed)
    ensures AllOk(s.(open := WaitingJobs(s.jobs)), live, now, count, consumed)
  {
    hide JobOk, EventsOk, OwnershipOk, CollectivesOk, Placeable;
  }

  lemma ViewGpus(s: Jobs, live: EventTable, now: nat, count: nat, consumed: seq<CollectiveResult>)
    requires AllOk(s, live, now, count, consumed)
    ensures s.view.Some? ==> ViewOk(s.view.value)
  {
    hide JobOk, EventsOk, CollectivesOk, AdmissionOk, CalmOk;
  }

  /** Taking free GPUs cannot make an owned one unhealthy. */
  lemma OwnedHealthy(view: seq<Resource>, workers: seq<nat>, j: nat)
    requires ViewOk(view) && Healthy(Some(view), None) && Candidate(view, workers, |workers|)
    ensures Healthy(Some(Owned(view, ToSet(workers), j)), None)
  {
    var view' := Owned(view, ToSet(workers), j);
    forall i | 0 <= i < |view'| && view'[i].owner.Some? ensures view'[i].healthy {
      if view[i].gpu in ToSet(workers) {
        assert HasFree(view, view[i].gpu);
      }
    }
  }

  /** Only the owner of a failing GPU is affected. */
  lemma HealthSet(view: seq<Resource>, gpu: nat, healthy: bool, owner: Option<nat>)
    requires ViewOk(view) && Healthy(Some(view), None)
    requires forall i :: 0 <= i < |view| && view[i].gpu == gpu ==> view[i].owner == owner
    ensures Healthy(Some(WithHealth(view, gpu, healthy)), if healthy then None else owner)
  {
  }
}
