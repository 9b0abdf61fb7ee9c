/** All training jobs together: their pending events, the GPUs they own and the collectives they wait for. */
module Cluster {
  import opened Prelude
  import opened Events
  import opened JobState
  import opened JobSteps
  import opened Placements
  import opened Inventory
  import opened RingState
  import opened RingTables
  import opened TransportState

  // Pending events

  /** An event of job j's own making. */
  predicate Mine(j: nat, p: Payload) {
    p.Workload? && p.job == j && (p.kind == Arrival || p.kind == ComputeReady)
  }

  /** A compute event that has not fired is pending, for the time its worker gets that far. */
  ghost predicate Pends(j: nat, job: Job, w: nat, i: nat, live: EventTable)
    requires w < |job.events| && i < |job.events[w]| && job.events[w][i].Some? && w < job.W() && job.PerWorker() > 0
             && job.buckets > 0
  {
    var e := job.events[w][i].value;
    && e in live && live[e].payload == Workload(j, ComputeReady, w, job.step, job.Bucket(i))
    && live[e].timestamp == job.stepStarted + Offset(job.spec.compute[w], i + 1, job.PerWorker())
  }

  ghost predicate JobEventsOk(j: nat, job: Job, live: EventTable) {
    && (job.arrivalEvent.Some? ==>
          && job.arrivalEvent.value in live && live[job.arrivalEvent.value].payload == Workload(j, Arrival, 0, 0, 0)
          && live[job.arrivalEvent.value].timestamp == job.spec.arrival)
    && (job.state.Active() ==> RowsOk(job) && ComputeEventsOk(j, job, live))
  }

  ghost predicate ComputeEventsOk(j: nat, job: Job, live: EventTable)
    requires RowsOk(job)
  {
    forall w, i :: 0 <= w < job.W() && 0 <= i < job.PerWorker() && job.events[w][i].Some? ==> Pends(j, job, w, i, live)
  }

  /** A pending event of a job's own making is one the job waits for. */
  ghost predicate Awaited(job: Job, e: nat, p: Payload)
    requires p.Workload?
  {
    if p.kind == Arrival then job.arrivalEvent == Some(e)
    else
      && job.state.Active() && RowsOk(job) && p.worker < job.W() && p.bucket < job.buckets && p.step == job.step
      && p.bucket == job.Bucket(job.Column(p.bucket)) && job.events[p.worker][job.Column(p.bucket)] == Some(e)
  }

  /** Control events name a known job and worker, or a known GPU of a scheduled cluster. */
  ghost predicate ControlOk(jobs: seq<Job>, view: Option<seq<Resource>>, p: Payload)
    requires p.Workload?
  {
    if p.kind == GpuDown || p.kind == GpuUp then view.Some? && Has(view.value, p.worker)
    else p.job < |jobs| && p.worker < jobs[p.job].W()
  }

  ghost predicate OwnedEvent(jobs: seq<Job>, view: Option<seq<Resource>>, e: nat, p: Payload)
    requires p.Workload?
  {
    if p.kind == Arrival || p.kind == ComputeReady then p.job < |jobs| && Awaited(jobs[p.job], e, p)
    else ControlOk(jobs, view, p)
  }

  ghost predicate EventsOk(jobs: seq<Job>, view: Option<seq<Resource>>, live: EventTable) {
    && (forall j :: 0 <= j < |jobs| ==> JobEventsOk(j, jobs[j], live))
    && (forall e :: e in live && live[e].payload.Workload? ==> OwnedEvent(jobs, view, e, live[e].payload))
    && (forall e :: e in live ==> !live[e].payload.NoOp?)
  }

  /** Only events of job j's own making come or go. */
  ghost predicate OnlyMine(live: EventTable, live': EventTable, j: nat) {
    && (forall e :: e in live && !Mine(j, live[e].payload) ==> e in live' && live'[e] == live[e])
    && (forall e :: e in live' && !Mine(j, live'[e].payload) ==> e in live && live[e] == live'[e])
  }

  /** Only workload events come or go. */
  ghost predicate OnlyWorkload(live: EventTable, live': EventTable) {
    && (forall e :: e in live && !live[e].payload.Workload? ==> e in live' && live'[e] == live[e])
    && (forall e :: e in live' && !live'[e].payload.Workload? ==> e in live && live[e] == live'[e])
  }

  lemma MineIsWorkload(live: EventTable, live': EventTable, j: nat)
    requires OnlyMine(live, live', j)
    ensures OnlyWorkload(live, live')
  {
  }

  lemma WorkloadSame(a: EventTable)
    ensures OnlyWorkload(a, a)
  {
  }

  /** Another job's events do not notice. */
  lemma OthersKeep(k: nat, job: Job, live: EventTable, live': EventTable, j: nat)
    requires JobEventsOk(k, job, live) && OnlyMine(live, live', j) && k != j
    ensures JobEventsOk(k, job, live')
  {
    if job.state.Active() {
      forall w, i | 0 <= w < job.W() && 0 <= i < job.PerWorker() && job.events[w][i].Some?
        ensures Pends(k, job, w, i, live')
      {
        assert Pends(k, job, w, i, live);
      }
    }
  }

  /** Job j changes together with its own events. */
  lemma EventsUpdate(jobs: seq<Job>, view: Option<seq<Resource>>, live: EventTable, j: nat, job: Job, live': EventTable)
    requires EventsOk(jobs, view, live) && j < |jobs| && job.W() == jobs[j].W()
    requires OnlyMine(live, live', j) && JobEventsOk(j, job, live')
    requires forall e :: e in live' && Mine(j, live'[e].payload) ==> Awaited(job, e, live'[e].payload)
    ensures EventsOk(jobs[j := job], view, live')
  {
    hide Awaited, JobEventsOk;
    var jobs' := jobs[j := job];
    forall k | 0 <= k < |jobs'| ensures JobEventsOk(k, jobs'[k], live') {
      if k != j {
        OthersKeep(k, jobs[k], live, live', j);
      }
    }
    forall e | e in live' && live'[e].payload.Workload? ensures OwnedEvent(jobs', view, e, live'[e].payload) {
      if !Mine(j, live'[e].payload) {
        assert OwnedEvent(jobs, view, e, live[e].payload);
      }
    }
  }

  /** The job has no event of its own pending. */
  ghost predicate Silent(live: EventTable, j: nat) {
    forall e :: e in live ==> !Mine(j, live[e].payload)
  }

  /** A job that waits for no event of its own has none pending. */
  lemma NoneAwaited(jobs: seq<Job>, view: Option<seq<Resource>>, live: EventTable, j: nat)
    requires EventsOk(jobs, view, live) && j < |jobs| && jobs[j].arrivalEvent == None
    requires jobs[j].state.Active() ==>
               RowsOk(jobs[j]) &&
               forall w :: 0 <= w < jobs[j].W() ==> forall i :: 0 <= i < |jobs[j].events[w]| ==>
                 jobs[j].events[w][i] == None
    ensures Silent(live, j)
  {
    forall e | e in live ensures !Mine(j, live[e].payload) {
      if live[e].payload.Workload? {
        assert OwnedEvent(jobs, view, e, live[e].payload);
      }
    }
  }

  /** A change that touches none of what events refer to. */
  lemma EventsSame(jobs: seq<Job>, view: Option<seq<Resource>>, live: EventTable, j: nat, job: Job)
    requires EventsOk(jobs, view, live) && j < |jobs|
    requires job.spec == jobs[j].spec && job.buckets == jobs[j].buckets && job.events == jobs[j].events
    requires job.arrivalEvent == jobs[j].arrivalEvent && job.step == jobs[j].step
             && job.stepStarted == jobs[j].stepStarted
    requires job.state.Active() == jobs[j].state.Active()
    ensures EventsOk(jobs[j := job], view, live)
  {
    var old' := jobs[j];
    assert JobEventsOk(j, old', live);
    if job.state.Active() {
      forall w, i | 0 <= w < job.W() && 0 <= i < job.PerWorker() && job.events[w][i].Some?
        ensures Pends(j, job, w, i, live) {
        assert Pends(j, old', w, i, live);
      }
    }
    forall e | e in live && Mine(j, live[e].payload) ensures Awaited(job, e, live[e].payload) {
      assert OwnedEvent(jobs, view, e, live[e].payload);
    }
    hide Pends;
    EventsUpdate(jobs, view, live, j, job, live);
  }

  /** What a dispatched compute event finds: its job in the step, and the event still awaited. */
  lemma FireFinds(jobs: seq<Job>, view: Option<seq<Resource>>, live: EventTable, e: nat)
    requires EventsOk(jobs, view, live) && e in live && live[e].payload.Workload?
             && live[e].payload.kind == ComputeReady
    requires live[e].payload.job < |jobs| ==> JobOk(jobs[live[e].payload.job], live[e].timestamp)
    ensures live[e].payload.job < |jobs|
    ensures var p, job := live[e].payload, jobs[live[e].payload.job];
            && job.state.Active() && Fires(job, p.worker, p.bucket) && p.step == job.step
            && job.events[p.worker][job.Column(p.bucket)] == Some(e)
            && (p.bucket + 1 == job.buckets ==> job.stepStarted + job.spec.compute[p.worker] == live[e].timestamp)
  {
    var p := live[e].payload;
    assert OwnedEvent(jobs, view, e, p);
    var job := jobs[p.job];
    assert JobEventsOk(p.job, job, live);
    assert Pends(p.job, job, p.worker, job.Column(p.bucket), live);
    LastOffset(job.spec.compute[p.worker], job.PerWorker());
    hide Offset, ReadyOk, SpecOk, ClockOk;
  }

  /** A compute event fires. */
  lemma EventsFire(jobs: seq<Job>, view: Option<seq<Resource>>, live: EventTable, event: Event)
    requires EventsOk(jobs, view, live[event.id := event]) && event.id !in live
    requires event.payload.Workload? && event.payload.kind == ComputeReady && event.payload.job < |jobs|
    requires var p, job := event.payload, jobs[event.payload.job];
             && job.state.Active() && Fires(job, p.worker, p.bucket)
             && job.events[p.worker][job.Column(p.bucket)] == Some(event.id)
    ensures var p, job := event.payload, jobs[event.payload.job];
            EventsOk(jobs[p.job := WithFired(job, p.worker, p.bucket)], view, live)
  {
    var p, j := event.payload, event.payload.job;
    var job, before := jobs[j], live[event.id := event];
    var job' := WithFired(job, p.worker, p.bucket);
    assert before - {event.id} == live;
    assert JobEventsOk(j, job, before);
    FiredStill(j, job, p.worker, p.bucket, before, event.id);
    forall e | e in live && Mine(j, live[e].payload) ensures Awaited(job', e, live[e].payload) {
      assert before[e] == live[e];
      assert OwnedEvent(jobs, view, e, before[e].payload);
      StillAwaited(job, p.worker, p.bucket, e, live[e].payload, event.id);
    }
    hide Awaited, JobEventsOk, Fires, WithFired;
    assert OnlyMine(before, live, j);
    EventsUpdate(jobs, view, before, j, job', live);
  }

  lemma StillAwaited(job: Job, worker: nat, bucket: nat, e: nat, p: Payload, fired: nat)
    requires p.Workload? && Awaited(job, e, p) && Fires(job, worker, bucket) && e != fired
    requires job.events[worker][job.Column(bucket)] == Some(fired)
    ensures Awaited(WithFired(job, worker, bucket), e, p)
  {
    hide SpecOk, BucketCount, Fired;
  }

  lemma FiredStill(j: nat, job: Job, worker: nat, bucket: nat, live: EventTable, e: nat)
    requires JobEventsOk(j, job, live) && job.state.Active() && Fires(job, worker, bucket)
    requires job.events[worker][job.Column(bucket)] == Some(e)
    ensures JobEventsOk(j, WithFired(job, worker, bucket), live - {e})
  {
    hide Offset, SpecOk, Fired;
    var job' := WithFired(job, worker, bucket);
    assert Pends(j, job, worker, job.Column(bucket), live);
    assert RowsOk(job');
    forall w, i | 0 <= w < job.W() && 0 <= i < job.PerWorker() && job'.events[w][i].Some?
      ensures Pends(j, job', w, i, live - {e}) {
      assert Pends(j, job, w, i, live);
    }
  }

  /** The compute events of a step that is about to begin, all of them new. */
  ghost predicate RowsScheduled(j: nat, job: Job, rows: seq<Row>, now: nat, live: EventTable, live': EventTable) {
    && job.buckets > 0 && AllPending(job, rows) && OnlyMine(live, live', j)
    && (forall w, i :: 0 <= w < |rows| && 0 <= i < |rows[w]| ==> RowEvent(j, job, rows, w, i, now, live'))
    && (forall e :: e in live' && Mine(j, live'[e].payload) ==> InRows(rows, e, live'[e].payload, job))
  }

  ghost predicate RowEvent(j: nat, job: Job, rows: seq<Row>, w: nat, i: nat, now: nat, live: EventTable)
    requires w < |rows| && i < |rows[w]| && w < job.W() && job.buckets > 0
  {
    rows[w][i].Some? && rows[w][i].value in live &&
    live[rows[w][i].value].payload == Workload(j, ComputeReady, w, job.step, job.Bucket(i)) &&
    (job.PerWorker() > 0 ==> live[rows[w][i].value].timestamp
                             == now + Offset(job.spec.compute[w], i + 1, job.PerWorker()))
  }

  ghost predicate InRows(rows: seq<Row>, e: nat, p: Payload, job: Job)
    requires p.Workload? && job.buckets > 0
  {
    && p.kind == ComputeReady && p.worker < |rows| && p.step == job.step && p.bucket < job.buckets
    && p.bucket == job.Bucket(job.Column(p.bucket))
    && job.Column(p.bucket) < |rows[p.worker]| && rows[p.worker][job.Column(p.bucket)] == Some(e)
  }

  lemma EventsBegin(jobs: seq<Job>, view: Option<seq<Resource>>, live: EventTable, j: nat, job: Job, rows: seq<Row>,
                    now: nat,
                    live': EventTable)
    requires EventsOk(jobs, view, live) && j < |jobs| && job.W() == jobs[j].W() && job.arrivalEvent == None
    requires RowsScheduled(j, job, rows, now, live, live')
    ensures EventsOk(jobs[j := Begun(job, rows, now)], view, live')
  {
    var job' := Begun(job, rows, now);
    assert RowsOk(job');
    hide Offset;
    forall w, i | 0 <= w < job'.W() && 0 <= i < job'.PerWorker() && job'.events[w][i].Some?
      ensures Pends(j, job', w, i, live') {
      assert RowEvent(j, job, rows, w, i, now, live');
    }
    forall e | e in live' && Mine(j, live'[e].payload) ensures Awaited(job', e, live'[e].payload) {
      assert InRows(rows, e, live'[e].payload, job);
    }
    hide Pends, Awaited;
    EventsUpdate(jobs, view, live, j, job', live');
  }

  /** A job ends, and with it every event of its own. */
  lemma EventsEnd(jobs: seq<Job>, view: Option<seq<Resource>>, live: EventTable, j: nat, job: Job, live': EventTable)
    requires EventsOk(jobs, view, live) && j < |jobs| && job.W() == jobs[j].W()
    requires job.arrivalEvent == None && !job.state.Active()
    requires OnlyMine(live, live', j) && Silent(live', j)
    ensures EventsOk(jobs[j := job], view, live')
  {
    EventsUpdate(jobs, view, live, j, job, live');
  }

  // Ownership

  ghost function OwnerOf(assignments: map<nat, nat>, gpu: nat): Option<nat> {
    if gpu in assignments then Some(assignments[gpu]) else None
  }

  ghost predicate ViewAgrees(assignments: map<nat, nat>, view: seq<Resource>) {
    && ViewOk(view)
    && (forall i :: 0 <= i < |view| ==> view[i].owner == OwnerOf(assignments, view[i].gpu))
    && (forall gpu :: gpu in assignments ==> Has(view, gpu))
  }

  /** No GPU that is owned is down, leaving aside those of job j. */
  ghost predicate Healthy(view: Option<seq<Resource>>, j: Option<nat>) {
    view.Some? ==> forall i :: 0 <= i < |view.value| ==>
      view.value[i].owner.Some? && view.value[i].owner != j ==> view.value[i].healthy
  }

  /** The three records of who owns which GPU agree. */
  ghost predicate OwnershipOk(jobs: seq<Job>, assignments: map<nat, nat>, view: Option<seq<Resource>>) {
    && (forall gpu :: gpu in assignments ==> Owns(jobs, assignments[gpu], gpu))
    && (forall j :: 0 <= j < |jobs| && jobs[j].state.Active() ==> HoldsAll(jobs[j].spec.workers, assignments, j))
    && (view.Some? ==> ViewAgrees(assignments, view.value))
  }

  ghost predicate Owns(jobs: seq<Job>, j: nat, gpu: nat) {
    j < |jobs| && jobs[j].state.Active() && gpu in jobs[j].spec.workers
  }

  ghost predicate HoldsAll(workers: seq<nat>, assignments: map<nat, nat>, j: nat) {
    forall w :: 0 <= w < |workers| ==> workers[w] in assignments && assignments[workers[w]] == j
  }

  lemma OwnersSame(jobs: seq<Job>, assignments: map<nat, nat>, view: Option<seq<Resource>>, j: nat, job: Job)
    requires OwnershipOk(jobs, assignments, view) && j < |jobs|
    requires job.state.Active() == jobs[j].state.Active() && job.spec.workers == jobs[j].spec.workers
    ensures OwnershipOk(jobs[j := job], assignments, view)
  {
    hide ViewAgrees, HoldsAll;
    forall gpu | gpu in assignments ensures Owns(jobs[j := job], assignments[gpu], gpu) {
      assert Owns(jobs, assignments[gpu], gpu);
    }
  }

  ghost function Assigned(assignments: map<nat, nat>, workers: seq<nat>, j: nat): (r: map<nat, nat>)
    ensures forall gpu :: gpu in r <==> gpu in assignments || gpu in workers
    ensures forall gpu :: gpu in workers ==> r[gpu] == j
    ensures forall gpu :: gpu in assignments && gpu !in workers ==> r[gpu] == assignments[gpu]
  {
    map gpu | gpu in assignments.Keys + (set w | 0 <= w < |workers| :: workers[w])
      :: if gpu in workers then j else assignments[gpu]
  }

  /** A job is placed on GPUs nobody owns. */
  lemma OwnersPlace(jobs: seq<Job>, assignments: map<nat, nat>, view: Option<seq<Resource>>, j: nat, job: Job,
                    r: map<nat, nat>)
    requires OwnershipOk(jobs, assignments, view) && j < |jobs| && !jobs[j].state.Active() && job.state.Active()
    requires forall w :: 0 <= w < |job.spec.workers| ==> job.spec.workers[w] !in assignments
    requires r == Assigned(assignments, job.spec.workers, j)
    requires view.Some? ==> Candidate(view.value, job.spec.workers, |job.spec.workers|)
    ensures OwnershipOk(jobs[j := job], r, if view.None? then None
                        else Some(Owned(view.value, ToSet(job.spec.workers), j)))
  {
    hide Owned, Assigned, ViewAgrees;
    var workers := job.spec.workers;
    forall gpu | gpu in r ensures Owns(jobs[j := job], r[gpu], gpu) {
      if gpu !in workers {
        assert Owns(jobs, assignments[gpu], gpu);
      }
    }
    var jobs' := jobs[j := job];
    forall k | 0 <= k < |jobs'| && jobs'[k].state.Active() ensures HoldsAll(jobs'[k].spec.workers, r, k) {
      if k != j {
        assert HoldsAll(jobs[k].spec.workers, assignments, k);
      }
    }
    if view.Some? {
      ViewPlace(assignments, view.value, workers, j, r);
    }
  }

  lemma ViewPlace(assignments: map<nat, nat>, view: seq<Resource>, workers: seq<nat>, j: nat, r: map<nat, nat>)
    requires ViewAgrees(assignments, view) && Candidate(view, workers, |workers|)
             && r == Assigned(assignments, workers, j)
    ensures ViewAgrees(r, Owned(view, ToSet(workers), j))
  {
    hide Assigned, Has, HasFree;
    var view' := Owned(view, ToSet(workers), j);
    assert forall gpu :: gpu in ToSet(workers) <==> gpu in workers;
    forall i | 0 <= i < |view'| ensures view'[i].owner == OwnerOf(r, view'[i].gpu) {
      assert view[i].owner == OwnerOf(assignments, view[i].gpu);
    }
    forall gpu | gpu in r ensures Has(view', gpu) {
      if gpu in workers {
        FreeIsThere(view, gpu);
      }
      SameGpus(view, view', gpu);
    }
  }

  lemma FreeIsThere(view: seq<Resource>, gpu: nat)
    requires HasFree(view, gpu)
    ensures Has(view, gpu)
  {
  }

  /** A free GPU is assigned to nobody. */
  lemma FreeIsUnassigned(jobs: seq<Job>, assignments: map<nat, nat>, view: seq<Resource>, workers: seq<nat>, k: nat)
    requires OwnershipOk(jobs, assignments, Some(view)) && Candidate(view, workers, k)
    ensures forall w :: 0 <= w < |workers| ==> workers[w] !in assignments
  {
    forall w | 0 <= w < |workers| ensures workers[w] !in assignments {
      assert HasFree(view, workers[w]);
    }
  }

  /** A job that was never placed owns nothing. */
  lemma OwnersNone(jobs: seq<Job>, assignments: map<nat, nat>, view: seq<Resource>, j: nat)
    requires OwnershipOk(jobs, assignments, Some(view)) && j < |jobs| && !jobs[j].state.Active()
    ensures forall i :: 0 <= i < |view| ==> view[i].owner != Some(j)
    ensures Released(view, j) == view
  {
    forall i | 0 <= i < |view| ensures view[i].owner != Some(j) {
      if view[i].gpu in assignments {
        assert Owns(jobs, assignments[view[i].gpu], view[i].gpu);
      }
    }
  }

  ghost predicate Unassigned(before: map<nat, nat>, after: map<nat, nat>, workers: seq<nat>) {
    && (forall gpu :: gpu in after <==> gpu in before && gpu !in workers)
    && (forall gpu :: gpu in after ==> gpu in before && after[gpu] == before[gpu])
  }

  /** A job gives back everything it owns. */
  lemma OwnersEnd(jobs: seq<Job>, assignments: map<nat, nat>, view: Option<seq<Resource>>, j: nat, job: Job,
                  r: map<nat, nat>)
    requires OwnershipOk(jobs, assignments, view) && j < |jobs| && jobs[j].state.Active() && !job.state.Active()
    requires Unassigned(assignments, r, jobs[j].spec.workers)
    ensures OwnershipOk(jobs[j := job], r, if view.None? then None else Some(Released(view.value, j)))
    ensures Healthy(view, Some(j)) ==> Healthy(if view.None? then None else Some(Released(view.value, j)), None)
  {
    hide Released, ViewAgrees;
    var workers := jobs[j].spec.workers;
    assert HoldsAll(workers, assignments, j);
    forall gpu | gpu in r ensures Owns(jobs[j := job], r[gpu], gpu) {
      assert Owns(jobs, assignments[gpu], gpu);
    }
    forall k | 0 <= k < |jobs| && k != j && jobs[k].state.Active() ensures HoldsAll(jobs[k].spec.workers, r, k) {
      assert HoldsAll(jobs[k].spec.workers, assignments, k);
    }
    if view.Some? {
      assert forall gpu :: gpu in assignments ==> (gpu in workers <==> assignments[gpu] == j) by {
        forall gpu | gpu in assignments ensures gpu in workers <==> assignments[gpu] == j {
          assert Owns(jobs, assignments[gpu], gpu);
        }
      }
      ViewEnd(assignments, view.value, workers, j, r);
    }
  }

  lemma ViewEnd(assignments: map<nat, nat>, view: seq<Resource>, workers: seq<nat>, j: nat, r: map<nat, nat>)
    requires ViewAgrees(assignments, view) && Unassigned(assignments, r, workers)
    requires forall gpu :: gpu in assignments ==> (gpu in workers <==> assignments[gpu] == j)
    ensures ViewAgrees(r, Released(view, j))
  {
    hide Has;
    var view' := Released(view, j);
    forall i | 0 <= i < |view'| ensures view'[i].owner == OwnerOf(r, view'[i].gpu) {
      assert view[i].owner == OwnerOf(assignments, view[i].gpu);
    }
    forall gpu | gpu in r ensures Has(view', gpu) {
      SameGpus(view, view', gpu);
    }
  }

  lemma SameGpus(view: seq<Resource>, view': seq<Resource>, gpu: nat)
    requires |view'| == |view| && forall i :: 0 <= i < |view| ==> view'[i].gpu == view[i].gpu
    ensures Has(view, gpu) <==> Has(view', gpu)
  {
  }

  // Collectives

  /** Each collective is awaited by one job until its result has been consumed. */
  ghost predicate CollectivesOk(jobs: seq<Job>, collectives: map<nat, nat>, count: nat,
                                consumed: seq<CollectiveResult>) {
    && (forall c :: c in collectives ==> c < count && !WasReported(c, consumed) && AwaitedBy(jobs, collectives[c], c))
    && (forall c :: 0 <= c < count && c !in collectives ==> WasReported(c, consumed))
    && (forall j :: 0 <= j < |jobs| && jobs[j].active.Some? ==>
          jobs[j].active.value in collectives && collectives[jobs[j].active.value] == j)
  }

  ghost predicate AwaitedBy(jobs: seq<Job>, j: nat, c: nat) {
    j < |jobs| && jobs[j].active == Some(c)
  }

  lemma CollectivesSame(jobs: seq<Job>, collectives: map<nat, nat>, count: nat, consumed: seq<CollectiveResult>, j: nat,
                        job: Job)
    requires CollectivesOk(jobs, collectives, count, consumed) && j < |jobs| && job.active == jobs[j].active
    ensures CollectivesOk(jobs[j := job], collectives, count, consumed)
  {
    hide WasReported;
    forall c | c in collectives ensures AwaitedBy(jobs[j := job], collectives[c], c) {
      assert AwaitedBy(jobs, collectives[c], c);
    }
  }

  lemma CollectiveBegins(jobs: seq<Job>, collectives: map<nat, nat>, count: nat, consumed: seq<CollectiveResult>,
                         j: nat, job: Job)
    requires CollectivesOk(jobs, collectives, count, consumed) && j < |jobs| && jobs[j].active == None
             && job.active == Some(count)
    requires forall i :: 0 <= i < |consumed| ==> consumed[i].id < count
    ensures CollectivesOk(jobs[j := job], collectives[count := j], count + 1, consumed)
  {
    var jobs', collectives' := jobs[j := job], collectives[count := j];
    forall c | c in collectives' ensures !WasReported(c, consumed) && AwaitedBy(jobs', collectives'[c], c) {
      if c != count {
        assert AwaitedBy(jobs, collectives[c], c);
      }
    }
  }

  lemma CollectiveEnds(jobs: seq<Job>, collectives: map<nat, nat>, count: nat, consumed: seq<CollectiveResult>,
                       result: CollectiveResult, job: Job)
    requires CollectivesOk(jobs, collectives, count, consumed) && result.id in collectives
             && collectives[result.id] < |jobs|
    requires job.active == None
    ensures CollectivesOk(jobs[collectives[result.id] := job], collectives - {result.id}, count, consumed + [result])
  {
    var j := collectives[result.id];
    var jobs', collectives', consumed' := jobs[j := job], collectives - {result.id}, consumed + [result];
    forall c ensures WasReported(c, consumed') <==> WasReported(c, consumed) || c == result.id {
      ReportedMore(c, consumed, result);
    }
    hide WasReported;
    forall c | c in collectives' ensures AwaitedBy(jobs', collectives'[c], c) {
      assert AwaitedBy(jobs, collectives[c], c) && AwaitedBy(jobs, j, result.id);
    }
  }

  lemma ReportedMore(c: nat, consumed: seq<CollectiveResult>, result: CollectiveResult)
    ensures WasReported(c, consumed + [result]) <==> WasReported(c, consumed) || c == result.id
  {
    var consumed' := consumed + [result];
    if WasReported(c, consumed) {
      var i :| 0 <= i < |consumed| && consumed[i].id == c;
      assert consumed'[i].id == c;
    }
    if c == result.id {
      assert consumed'[|consumed|].id == c;
    }
  }

  /** The next result is one a job awaits. */
  lemma ResultIsAwaited(courses: seq<Course>, results: seq<CollectiveResult>, k: nat, jobs: seq<Job>,
                        collectives: map<nat, nat>)
    requires ResultsOk(courses, results) && k < |results|
    requires CollectivesOk(jobs, collectives, |courses|, results[..k])
    ensures results[k].id in collectives && collectives[results[k].id] < |jobs|
    ensures jobs[collectives[results[k].id]].active == Some(results[k].id)
  {
    assert !WasReported(results[k].id, results[..k]);
    assert AwaitedBy(jobs, collectives[results[k].id], results[k].id);
  }

  // Admission

  function RequestOf(j: nat, spec: JobSpec): JobRequest {
    JobRequest(j, |spec.compute|, spec.workers)
  }

  ghost predicate Placeable(j: nat, spec: JobSpec, view: seq<Resource>) {
    !Misfit(RequestOf(j, spec), view) && Available(RequestOf(j, spec), view)
  }

  /** No waiting job could be placed on the current inventory, leaving aside those in `open`. */
  ghost predicate AdmissionOk(jobs: seq<Job>, view: Option<seq<Resource>>, open: set<nat>) {
    forall j :: 0 <= j < |jobs| && jobs[j].state.Waiting? ==>
      view.Some? && (j !in open ==> !Placeable(j, jobs[j].spec, view.value))
  }

  lemma AdmissionSame(jobs: seq<Job>, view: Option<seq<Resource>>, open: set<nat>, j: nat, job: Job)
    requires AdmissionOk(jobs, view, open) && j < |jobs| && !job.state.Waiting?
    ensures AdmissionOk(jobs[j := job], view, open)
  {
    hide Placeable;
  }

  ghost function Everyone(n: nat): (all: set<nat>)
    ensures forall j :: j in all <==> 0 <= j < n
  {
    if n == 0 then {} else Everyone(n - 1) + {n - 1}
  }

  /** Whatever happened to the inventory, every waiting job is open again. */
  lemma AdmissionDue(jobs: seq<Job>, view: Option<seq<Resource>>, open: set<nat>, view': Option<seq<Resource>>)
    requires AdmissionOk(jobs, view, open) && (view.Some? ==> view'.Some?)
    ensures AdmissionOk(jobs, view', Everyone(|jobs|))
  {
    hide Placeable;
  }

  /** Fewer GPUs are free. */
  ghost predicate Shrunk(view: seq<Resource>, view': seq<Resource>) {
    && |view'| == |view|
    && forall i :: 0 <= i < |view| ==> view'[i].gpu == view[i].gpu && (Free(view'[i]) ==> Free(view[i]))
  }

  lemma {:induction false} FreeShrinks(view: seq<Resource>, view': seq<Resource>)
    requires Shrunk(view, view')
    ensures |FreeOf(view')| <= |FreeOf(view)|
  {
    if view != [] {
      FreeShrinks(view[..|view| - 1], view'[..|view| - 1]);
    }
  }

  lemma HasFreeShrinks(view: seq<Resource>, view': seq<Resource>, gpu: nat)
    requires Shrunk(view, view') && HasFree(view', gpu)
    ensures HasFree(view, gpu)
  {
    var i :| 0 <= i < |view'| && view'[i].gpu == gpu && Free(view'[i]);
    assert view[i].gpu == gpu && Free(view[i]);
  }

  /** A job that could not be placed cannot be placed on fewer free GPUs either. */
  lemma UnplaceableStays(j: nat, spec: JobSpec, view: seq<Resource>, view': seq<Resource>)
    requires Shrunk(view, view') && Placeable(j, spec, view')
    ensures Placeable(j, spec, view)
  {
    var request := RequestOf(j, spec);
    forall gpu ensures Has(view, gpu) <==> Has(view', gpu) {
      SameGpus(view, view', gpu);
    }
    hide Has, HasFree;
    FreeShrinks(view, view');
    hide FreeOf;
    if request.pinned != [] {
      forall i | 0 <= i < |request.pinned| ensures HasFree(view, request.pinned[i]) {
        HasFreeShrinks(view, view', request.pinned[i]);
      }
    }
  }

  lemma OwnedShrinks(view: seq<Resource>, workers: set<nat>, j: nat)
    ensures Shrunk(view, Owned(view, workers, j))
  {
  }

  // Load

  ghost function ReadyAhead(job: Job, b: nat): nat
    requires b <= |job.ready|
    decreases |job.ready| - b
  {
    if b == |job.ready| then 0 else ReadyAhead(job, b + 1) + (if job.ready[b] == job.W() then 1 else 0)
  }

  /** How many more results a job can consume before another of its events is dispatched. */
  ghost function Weight(job: Job): nat {
    if job.state.Terminal() then (if job.active.Some? then 1 else 0)
    else if job.state.Active() && job.completedBuckets <= |job.ready| then ReadyAhead(job, job.completedBuckets)
    else 0
  }

  ghost function Load(jobs: seq<Job>): nat {
    if |jobs| == 0 then 0 else Load(jobs[..|jobs| - 1]) + Weight(jobs[|jobs| - 1])
  }

  lemma {:induction false} LoadChanges(jobs: seq<Job>, j: nat, job: Job)
    requires j < |jobs|
    ensures Load(jobs[j := job]) + Weight(jobs[j]) == Load(jobs) + Weight(job)
  {
    hide Weight;
    var last := |jobs| - 1;
    if j == last {
      assert jobs[j := job][..last] == jobs[..last];
    } else {
      LoadChanges(jobs[..last], j, job);
      assert jobs[j := job][..last] == jobs[..last][j := job];
    }
  }

  lemma {:induction false} AheadSame(a: Job, b: Job, from: nat)
    requires a.ready == b.ready && a.W() == b.W() && from <= |a.ready|
    ensures ReadyAhead(a, from) == ReadyAhead(b, from)
    decreases |a.ready| - from
  {
    if from < |a.ready| {
      AheadSame(a, b, from + 1);
    }
  }

  lemma {:induction false} AheadNone(job: Job, from: nat)
    requires from <= |job.ready| && job.W() > 0 && forall b :: 0 <= b < |job.ready| ==> job.ready[b] == 0
    ensures ReadyAhead(job, from) == 0
    decreases |job.ready| - from
  {
    if from < |job.ready| {
      AheadNone(job, from + 1);
    }
  }
}
