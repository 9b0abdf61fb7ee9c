/** One training job of `simulator/src/workload`: its specification, its progress and its clock. */
module JobState {
  import opened Prelude
  import opened Events
  import Timing

  datatype JobSpec = JobSpec(
    workers: seq<nat>, requestedWorkers: nat, compute: seq<nat>, arrival: nat, steps: nat,
    gradientBytes: nat, bucketBytes: nat, chunkBytes: nat, priority: nat, overlap: bool)

  datatype State = Scheduled | Waiting | Computing | Overlapping | Communicating | Succeeded | Failed | Cancelled {
    predicate Terminal() {
      Succeeded? || Failed? || Cancelled?
    }

    predicate Active() {
      Computing? || Overlapping? || Communicating?
    }
  }

  /** A worker's compute events that have not fired yet. */
  type Row = seq<Option<nat>>

  /** `events[worker][index]` is the pending compute event; the source keeps the rows in one vector. */
  datatype Job = Job(
    spec: JobSpec, state: State, step: nat, buckets: nat, completedBuckets: nat, computeComplete: nat,
    stepStarted: nat, computeGpu: nat, finished: Option<nat>, arrivalEvent: Option<nat>, active: Option<nat>,
    ready: seq<nat>, events: seq<Row>, placed: bool, allocatedAt: Option<nat>)
  {
    function W(): nat {
      |spec.compute|
    }

    /** Compute events per worker: one per bucket when communication overlaps compute. */
    function PerWorker(): nat {
      if spec.overlap then buckets else 1
    }

    /** The event that makes a bucket ready. */
    function Column(bucket: nat): nat {
      if spec.overlap then bucket else 0
    }

    /** The bucket an event names. */
    function Bucket(index: nat): nat
      requires buckets > 0
    {
      if spec.overlap then index else buckets - 1
    }
  }

  // Specification

  ghost function Sum(s: seq<nat>): nat {
    if |s| == 0 then 0 else Sum(s[..|s| - 1]) + s[|s| - 1]
  }

  /** How many buckets the gradient is cut into. */
  function BucketCount(spec: JobSpec): nat
    requires spec.bucketBytes > 0
  {
    spec.gradientBytes / spec.bucketBytes + (if spec.gradientBytes % spec.bucketBytes != 0 then 1 else 0)
  }

  /** What `validate` promises about a job, whatever the limits. */
  ghost predicate SpecOk(spec: JobSpec) {
    && |spec.compute| > 0 && (forall w :: 0 <= w < |spec.compute| ==> spec.compute[w] > 0)
    && spec.steps > 0 && spec.gradientBytes > 0 && spec.bucketBytes > 0 && spec.chunkBytes > 0
    && (forall i, j :: 0 <= i < j < |spec.workers| ==> spec.workers[i] != spec.workers[j])
    && (spec.workers == [] || |spec.workers| == |spec.compute|)
    && spec.steps * Sum(spec.compute) <= U64_MAX
  }

  /** Bytes of the next bucket. */
  function BucketBytes(spec: JobSpec, completed: nat): nat
    requires completed * spec.bucketBytes <= spec.gradientBytes
  {
    var rest := spec.gradientBytes - completed * spec.bucketBytes;
    if spec.bucketBytes < rest then spec.bucketBytes else rest
  }

  ghost function BytesOfBuckets(spec: JobSpec, completed: nat): nat
    requires spec.bucketBytes > 0 && completed <= BucketCount(spec)
  {
    if completed == 0 then 0
    else
      BucketStarts(spec, completed - 1);
      BytesOfBuckets(spec, completed - 1) + BucketBytes(spec, completed - 1)
  }

  /** Every bucket starts before the gradient ends, so no bucket is empty. */
  lemma BucketStarts(spec: JobSpec, completed: nat)
    requires spec.bucketBytes > 0 && completed < BucketCount(spec)
    ensures completed * spec.bucketBytes < spec.gradientBytes && BucketBytes(spec, completed) > 0
  {
    var q, r := spec.gradientBytes / spec.bucketBytes, spec.gradientBytes % spec.bucketBytes;
    assert spec.gradientBytes == q * spec.bucketBytes + r;
    Scale(completed, q, spec.bucketBytes);
    if completed < q {
      Scale(completed + 1, q, spec.bucketBytes);
    }
  }

  /** The buckets of a step add up to the gradient. */
  lemma {:induction false} BucketsCover(spec: JobSpec, completed: nat)
    requires spec.bucketBytes > 0 && completed <= BucketCount(spec)
    ensures BytesOfBuckets(spec, completed) ==
            if completed < BucketCount(spec) then completed * spec.bucketBytes else spec.gradientBytes
  {
    var q, r := spec.gradientBytes / spec.bucketBytes, spec.gradientBytes % spec.bucketBytes;
    assert spec.gradientBytes == q * spec.bucketBytes + r;
    if completed > 0 {
      BucketsCover(spec, completed - 1);
      BucketStarts(spec, completed - 1);
      assert completed * spec.bucketBytes == (completed - 1) * spec.bucketBytes + spec.bucketBytes;
      if completed < BucketCount(spec) {
        Scale(completed, q, spec.bucketBytes);
      }
    }
  }

  // Ready offsets

  /** When the f-th of e compute events of a worker falls due, as the engine computes it. */
  function Offset(duration: nat, fraction: nat, events: nat): nat
    requires events > 0
  {
    (duration / events) * fraction + ((duration % events) * fraction + events - 1) / events
  }

  lemma QuotientShift(a: nat, b: nat, e: nat)
    requires e > 0
    ensures (a * e + b) / e == a + b / e
  {
    var q, r := b / e, b % e;
    assert b == q * e + r;
    assert a * e + b == (a + q) * e + r;
    Timing.QuotientIs(a * e + b, e, a + q, r);
  }

  /** Ready offsets are exact: the ceiling of duration * f / e, without forming that product. */
  lemma OffsetIsCeiling(duration: nat, fraction: nat, events: nat)
    requires events > 0
    ensures Offset(duration, fraction, events) == Timing.CeilDiv(duration * fraction, events)
  {
    var q, r := duration / events, duration % events;
    assert duration == q * events + r;
    calc {
      duration * fraction + events - 1;
      (q * events + r) * fraction + events - 1;
      (q * fraction) * events + (r * fraction + events - 1);
    }
    QuotientShift(q * fraction, r * fraction + events - 1, events);
  }

  /** The last event of a worker falls due exactly when its compute ends. */
  lemma LastOffset(duration: nat, events: nat)
    requires events > 0
    ensures Offset(duration, events, events) == duration
  {
    OffsetIsCeiling(duration, events, events);
    Timing.CeilDivUnique(duration * events, events, duration);
  }
}
