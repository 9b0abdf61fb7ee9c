/**
 The telemetry session of `simulator/src/telemetry/session.cpp`: which records are retained, the live
 summary, and the samples of counters and gauges taken at the boundaries of a fixed interval.

 A sample frame holds, as a map, the samples the source appends one by one in key order. The summary
 exists in every mode; in mode Off nothing reaches it.
 */
module Telemetry {
  import opened Prelude
  import opened Metrics
  import opened Attribution

  datatype Mode = Off | SummaryOnly | Sampled | Full

  datatype Limits = Limits(
    metricSeries: nat, decisionRecords: nat, domainRecords: nat, samples: nat, histogramBoundaries: nat,
    correlationEdges: nat, serializedBytes: nat)

  datatype Configuration = Configuration(mode: Mode, interval: nat, limits: Limits)

  datatype StoredRecord = StoredRecord(record: Record, id: nat)

  datatype SampleFrame = SampleFrame(timestamp: nat, values: map<Key, nat>)

  /** `validate_configuration`. */
  predicate ConfigurationOk(c: Configuration) {
    && c.interval > 0 && c.limits.decisionRecords > 0 && c.limits.domainRecords > 0 && c.limits.samples > 0
    && c.limits.correlationEdges > 0 && c.limits.serializedBytes > 0
    && MetricRegistry.LimitsOk(c.limits.metricSeries, c.limits.histogramBoundaries)
  }

  // Retention

  predicate Retains(mode: Mode, r: Record) {
    mode == Full || (mode == Sampled && r.observation.DecisionObservation?)
  }

  ghost function Retained(mode: Mode, history: seq<Record>): seq<Record> {
    if history == [] then []
    else
      var k := |history| - 1;
      Retained(mode, history[..k]) + (if Retains(mode, history[k]) then [history[k]] else [])
  }

  lemma {:induction false} FullRetainsAll(history: seq<Record>)
    ensures Retained(Full, history) == history
  {
    if history != [] {
      FullRetainsAll(history[..|history| - 1]);
    }
  }

  ghost function Edges(records: seq<Record>): nat {
    if records == [] then 0
    else Edges(records[..|records| - 1]) + records[|records| - 1].correlation.Edges()
  }

  ghost function Decisions(records: seq<Record>): nat {
    if records == [] then 0
    else Decisions(records[..|records| - 1])
         + (if records[|records| - 1].observation.DecisionObservation? then 1 else 0)
  }

  /** The retained records, their IDs in order and the counts kept of them. */
  datatype Store = Store(
    records: seq<StoredRecord>, edges: nat, decisions: nat, domain: nat, nextId: nat, exhausted: bool)

  ghost predicate StoreOk(s: Store, limits: Limits, retained: seq<Record>) {
    && |s.records| == |retained|
    && (forall i :: 0 <= i < |retained| ==> s.records[i] == StoredRecord(retained[i], i))
    && s.edges == Edges(retained) <= limits.correlationEdges
    && s.decisions == Decisions(retained) <= limits.decisionRecords
    && s.domain == |retained| - Decisions(retained) <= limits.domainRecords
    && (if s.exhausted then |retained| == U64_MAX + 1 && s.nextId == U64_MAX
        else |retained| == s.nextId <= U64_MAX)
  }

  /** Why a record that is to be retained is refused, if it is. */
  function StoreObjection(s: Store, limits: Limits, r: Record): Option<Error> {
    var decision := r.observation.DecisionObservation?;
    if decision && s.decisions >= limits.decisionRecords then Some(LengthError)
    else if !decision && s.domain >= limits.domainRecords then Some(LengthError)
    else if s.edges + r.correlation.Edges() > U64_MAX then Some(OverflowError)
    else if s.edges + r.correlation.Edges() > limits.correlationEdges then Some(LengthError)
    else if s.exhausted then Some(OverflowError)
    else None
  }

  function Stored(s: Store, r: Record): Store {
    var decision := r.observation.DecisionObservation?;
    Store(s.records + [StoredRecord(r, s.nextId)], s.edges + r.correlation.Edges(),
          if decision then s.decisions + 1 else s.decisions, if decision then s.domain else s.domain + 1,
          if s.nextId == U64_MAX then s.nextId else s.nextId + 1, s.nextId == U64_MAX)
  }

  lemma StoreKeeps(s: Store, limits: Limits, retained: seq<Record>, r: Record)
    requires StoreOk(s, limits, retained) && StoreObjection(s, limits, r) == None
    ensures StoreOk(Stored(s, r), limits, retained + [r])
  {
    var all := retained + [r];
    assert all[..|retained|] == retained;
  }

  lemma RetainedNext(mode: Mode, history: seq<Record>, r: Record)
    ensures Retained(mode, history + [r]) ==
            if Retains(mode, r) then Retained(mode, history) + [r] else Retained(mode, history)
  {
    Appended(history, r);
  }

  // Sampling

  /** The k-th sample boundary, if it is representable. */
  function Boundary(interval: nat, k: nat): Option<nat> {
    if k * interval <= U64_MAX then Some(k * interval) else None
  }

  /** How many boundaries there are up to `limit`. */
  function Reached(interval: nat, limit: int): nat
    requires interval > 0
  {
    if limit < 0 then 0 else limit / interval
  }

  lemma IsReached(interval: nat, limit: int, k: nat)
    requires interval > 0
    ensures 0 < k ==> (k * interval <= limit <==> k <= Reached(interval, limit))
  {
    if limit >= 0 {
      var q := limit / interval;
      assert q * interval <= limit < q * interval + interval;
      if k <= q {
        Scale(k, q, interval);
      } else {
        Scale(q + 1, k, interval);
        assert (q + 1) * interval == q * interval + interval;
      }
    } else {
      assert k * interval >= 0;
    }
  }

  /** The boundary after the last one up to `limit`, from the next one on. */
  function Skip(interval: nat, first: nat, limit: nat): Option<nat>
    requires interval > 0 && first <= limit
  {
    var lastBoundary := first + (limit - first) / interval * interval;
    if interval > U64_MAX - lastBoundary then None else Some(lastBoundary + interval)
  }

  /** The counters and gauges. */
  function Scalars(series: SeriesTable): map<Key, nat> {
    map key | key in series && (series[key].kind == Counter || series[key].kind == Gauge) :: series[key].scalar
  }

  function FrameOf(series: SeriesTable, timestamp: nat): seq<SampleFrame> {
    if Scalars(series) == map[] then [] else [SampleFrame(timestamp, Scalars(series))]
  }

  /** The frames of boundaries k + 1 to `until` while the series stay the same. */
  ghost function FramesFrom(series: SeriesTable, interval: nat, k: nat, until: nat): seq<SampleFrame> {
    if until <= k then []
    else FramesFrom(series, interval, k, until - 1) + FrameOf(series, until * interval)
  }

  /** Without a counter or gauge there is nothing to sample, however many boundaries are passed. */
  lemma {:induction false} NothingToSample(series: SeriesTable, interval: nat, k: nat, until: nat)
    requires Scalars(series) == map[]
    ensures FramesFrom(series, interval, k, until) == []
    decreases until
  {
    if k < until {
      NothingToSample(series, interval, k, until - 1);
    }
  }

  /** The records made up to an instant. */
  ghost function Until(history: seq<Record>, instant: nat): seq<Record> {
    if history == [] || history[|history| - 1].timestamp <= instant then history
    else Until(history[..|history| - 1], instant)
  }

  ghost function SeriesAt(maximum: nat, history: seq<Record>, instant: nat): SeriesTable {
    var s := Replay(maximum, Until(history, instant));
    if s == None then map[] else s.value.series
  }

  /** What was to be sampled at the first k boundaries: each series as the records up to then leave it. */
  ghost function Frames(maximum: nat, history: seq<Record>, interval: nat, k: nat): seq<SampleFrame> {
    if k == 0 then []
    else Frames(maximum, history, interval, k - 1) + FrameOf(SeriesAt(maximum, history, k * interval), k * interval)
  }

  lemma {:induction false} FramesExtend(maximum: nat, history: seq<Record>, s: Summary, interval: nat, k: nat,
                                        until: nat)
    requires Replay(maximum, history) == Some(s) && k <= until
    requires history != [] ==> End(history).value <= (k + 1) * interval
    ensures Frames(maximum, history, interval, until) ==
            Frames(maximum, history, interval, k) + FramesFrom(s.series, interval, k, until)
    decreases until
  {
    hide Replay, FrameOf;
    if k < until {
      FramesExtend(maximum, history, s, interval, k, until - 1);
      Scale(k + 1, until, interval);
      assert Until(history, until * interval) == history;
    }
  }

  /** A record changes nothing about the boundaries before it. */
  lemma {:induction false} FramesKept(maximum: nat, history: seq<Record>, r: Record, interval: nat, k: nat)
    requires k > 0 ==> k * interval < r.timestamp
    ensures Frames(maximum, history + [r], interval, k) == Frames(maximum, history, interval, k)
  {
    hide Replay, FrameOf;
    if k > 0 {
      Appended(history, r);
      assert Until(history + [r], k * interval) == Until(history, k * interval);
      Scale(k - 1, k, interval);
      FramesKept(maximum, history, r, interval, k - 1);
    }
  }

  /** The boundaries sampled are those the time has passed, up to the last record. */
  ghost predicate OnTime(interval: nat, k: nat, end: Option<nat>) {
    && (k > 0 ==> end.Some? && k * interval < end.value)
    && (end.Some? ==> end.value <= (k + 1) * interval)
  }

  ghost function Held(frames: seq<SampleFrame>): nat {
    if frames == [] then 0 else Held(frames[..|frames| - 1]) + |frames[|frames| - 1].values|
  }

  lemma HeldNext(frames: seq<SampleFrame>, frame: SampleFrame)
    ensures Held(frames + [frame]) == Held(frames) + |frame.values|
  {
    assert (frames + [frame])[..|frames|] == frames;
  }

  predicate Samples(mode: Mode) {
    mode == Sampled || mode == Full
  }

  class TelemetrySession {
    const configuration: Configuration
    const summary: SummaryBuilder
    var records: seq<StoredRecord>
    var frames: seq<SampleFrame>
    var held: nat
    var lastTimestamp: Option<nat>
    var nextSample: Option<nat>
    var retainedEdges: nat
    var retainedDecisions: nat
    var retainedDomain: nat
    var nextRecordId: nat
    var idsExhausted: bool
    var isFinalized: bool
    /** The number of boundaries passed, and whether no sampling has been cut short by its limit. */
    ghost var boundaries: nat
    ghost var timely: bool

    function StoreView(): Store
      reads this
    {
      Store(records, retainedEdges, retainedDecisions, retainedDomain, nextRecordId, idsExhausted)
    }

    ghost predicate SamplerOk()
      reads this
    {
      && ConfigurationOk(configuration) && configuration.interval > 0
      && nextSample == Boundary(configuration.interval, boundaries + 1)
      && held == Held(frames) <= configuration.limits.samples
    }

    /** Every sample taken is of the state the records up to its boundary leave. */
    ghost predicate SamplesOk()
      reads this, summary, summary.metrics
      requires ConfigurationOk(configuration)
    {
      if !Samples(configuration.mode) then frames == []
      else timely ==>
        && frames == Frames(summary.metrics.maximum, summary.history, configuration.interval, boundaries)
        && if isFinalized then lastTimestamp.Some?
                               && boundaries == Reached(configuration.interval, lastTimestamp.value)
           else OnTime(configuration.interval, boundaries, lastTimestamp)
    }

    ghost predicate Valid()
      reads this, summary, summary.metrics
    {
      && SamplerOk() && summary.Valid() && summary.metrics.maximum == configuration.limits.metricSeries
      && StoreOk(StoreView(), configuration.limits, Retained(configuration.mode, summary.history))
      && (if configuration.mode == Off then summary.history == []
          else lastTimestamp == summary.last && isFinalized == summary.finalized)
      && SamplesOk()
    }

    constructor (configuration: Configuration, summary: SummaryBuilder)
      requires ConfigurationOk(configuration) && configuration.interval <= U64_MAX
      requires summary.Valid() && summary.metrics.maximum == configuration.limits.metricSeries
      requires summary.history == [] && !summary.finalized && summary.last == None
      ensures Valid() && this.configuration == configuration && this.summary == summary
      ensures records == [] && frames == [] && !isFinalized && timely && boundaries == 0
    {
      this.configuration, this.summary := configuration, summary;
      records, frames, held := [], [], 0;
      lastTimestamp, nextSample := None, Some(configuration.interval);
      retainedEdges, retainedDecisions, retainedDomain := 0, 0, 0;
      nextRecordId, idsExhausted, isFinalized := 0, false, false;
      boundaries, timely := 0, true;
    }

    static method Create(configuration: Configuration) returns (r: Result<TelemetrySession>)
      requires configuration.interval <= U64_MAX
      ensures r.Ok? <==> ConfigurationOk(configuration)
      ensures r.Throw? ==> r.error == InvalidArgument
      ensures r.Ok? ==> r.value.Valid() && fresh(r.value) && r.value.configuration == configuration
                        && r.value.records == [] && r.value.summary.history == [] && !r.value.isFinalized
    {
      if !ConfigurationOk(configuration) {
        return Throw(InvalidArgument);
      }
      var registry := new MetricRegistry(configuration.limits.metricSeries);
      var summary := new SummaryBuilder(registry);
      var session := new TelemetrySession(configuration, summary);
      return Ok(session);
    }

    // Sampling

    method AppendFrame(timestamp: nat) returns (r: Result<()>)
      requires held == Held(frames) <= configuration.limits.samples
      modifies this`frames, this`held
      ensures held == Held(frames) <= configuration.limits.samples
      ensures r.Throw? <==> old(held) + |Scalars(summary.metrics.series)| > configuration.limits.samples
      ensures r.Throw? ==> r.error == LengthError && frames == old(frames)
      ensures r.Ok? ==> frames == old(frames) + FrameOf(summary.metrics.series, timestamp)
    {
      var scalars := Scalars(summary.metrics.series);
      hide Scalars;
      if |scalars| > configuration.limits.samples - held {
        return Throw(LengthError);
      }
      if scalars != map[] {
        HeldNext(frames, SampleFrame(timestamp, scalars));
        frames := frames + [SampleFrame(timestamp, scalars)];
        held := held + |scalars|;
      }
      return Ok(());
    }

    /** `skip_empty_sample_boundaries`: in one step, where the loop of `emit_samples_until` takes many. */
    method SkipBoundaries(timestamp: nat, inclusive: bool)
      requires SamplerOk() && timestamp <= U64_MAX
      modifies this`nextSample, this`boundaries
      ensures SamplerOk()
      ensures var reached := Reached(configuration.interval, if inclusive then timestamp else timestamp - 1);
              boundaries == if reached < old(boundaries) then old(boundaries) else reached
    {
      hide Boundary, Reached, Held;
      ghost var limit := if inclusive then timestamp else timestamp - 1;
      Due(configuration.interval, limit, boundaries);
      if nextSample == None || (!inclusive && timestamp == 0) {
        return;
      }
      var lastEligible := if inclusive then timestamp else timestamp - 1;
      if nextSample.value > lastEligible {
        return;
      }
      Skipped(configuration.interval, lastEligible, boundaries);
      ghost var complete := (lastEligible - nextSample.value) / configuration.interval;
      nextSample := Skip(configuration.interval, nextSample.value, lastEligible);
      boundaries := boundaries + 1 + complete;
    }

    /** `emit_samples_until`; with nothing to sample, the boundaries are passed without the loop. */
    method EmitSamples(timestamp: nat, inclusive: bool) returns (r: Result<()>)
      requires SamplerOk() && timestamp <= U64_MAX
      modifies this`frames, this`held, this`nextSample, this`boundaries
      ensures SamplerOk()
      ensures !Samples(configuration.mode) ==> r.Ok? && boundaries == old(boundaries) && frames == old(frames)
      ensures Samples(configuration.mode) ==>
                frames == old(frames)
                          + FramesFrom(summary.metrics.series, configuration.interval, old(boundaries), boundaries)
      ensures r.Throw? ==> r.error == LengthError
      ensures var reached := Reached(configuration.interval, if inclusive then timestamp else timestamp - 1);
              Samples(configuration.mode) && r.Ok? ==>
                boundaries == if reached < old(boundaries) then old(boundaries) else reached
    {
      if !Samples(configuration.mode) {
        return Ok(());
      }
      hide FrameOf;
      if Scalars(summary.metrics.series) == map[] {
        SkipBoundaries(timestamp, inclusive);
        NothingToSample(summary.metrics.series, configuration.interval, old(boundaries), boundaries);
        return Ok(());
      }
      r := EmitFrames(timestamp, inclusive);
    }

    method EmitOne() returns (r: Result<()>)
      requires SamplerOk() && nextSample.Some?
      modifies this`frames, this`held, this`nextSample, this`boundaries
      ensures SamplerOk()
      ensures r.Throw? ==> r.error == LengthError && boundaries == old(boundaries) && frames == old(frames)
      ensures r.Ok? ==> boundaries == old(boundaries) + 1
                        && frames == old(frames)
                                     + FrameOf(summary.metrics.series, boundaries * configuration.interval)
    {
      hide FrameOf, Held, Scalars;
      var current, interval := nextSample.value, configuration.interval;
      NextBoundary(interval, boundaries + 1);
      r := AppendFrame(current);
      if r.Ok? {
        boundaries := boundaries + 1;
        nextSample := if interval > U64_MAX - current then None else Some(current + interval);
      }
    }

    /** The loop of `emit_samples_until`. */
    method EmitFrames(timestamp: nat, inclusive: bool) returns (r: Result<()>)
      requires SamplerOk() && timestamp <= U64_MAX
      modifies this`frames, this`held, this`nextSample, this`boundaries
      ensures SamplerOk()
      ensures frames == old(frames)
                        + FramesFrom(summary.metrics.series, configuration.interval, old(boundaries), boundaries)
      ensures r.Throw? ==> r.error == LengthError
      ensures var reached := Reached(configuration.interval, if inclusive then timestamp else timestamp - 1);
              r.Ok? ==> boundaries == if reached < old(boundaries) then old(boundaries) else reached
    {
      hide FrameOf, Held, Scalars, Boundary, Reached;
      ghost var limit := if inclusive then timestamp else timestamp - 1;
      ghost var reached := Reached(configuration.interval, limit);
      assert frames == old(frames) + FramesFrom(summary.metrics.series, configuration.interval, boundaries, boundaries);
      Due(configuration.interval, limit, boundaries);
      while nextSample.Some? && (nextSample.value < timestamp || (inclusive && nextSample.value == timestamp))
        invariant SamplerOk() && old(boundaries) <= boundaries
        invariant boundaries == old(boundaries) || boundaries <= reached
        invariant frames == old(frames) + FramesFrom(summary.metrics.series, configuration.interval,
                                                     old(boundaries), boundaries)
        invariant nextSample.Some? && nextSample.value <= limit <==> boundaries + 1 <= reached
        decreases reached - boundaries
      {
        ghost var earlier := frames;
        r := EmitOne();
        if r.Throw? {
          return;
        }
        FramesNext(old(frames), earlier, summary.metrics.series, configuration.interval, old(boundaries), boundaries);
        Due(configuration.interval, limit, boundaries);
      }
      return Ok(());
    }

    // Records

    /** Why `record` throws before it samples anything, if it does. */
    ghost function Refusal(record: Record): Option<Error>
      reads this, summary, summary.metrics
    {
      if configuration.mode == Off then None
      else if isFinalized then Some(LogicError)
      else if lastTimestamp.Some? && record.timestamp < lastTimestamp.value then Some(InvalidArgument)
      else if Retains(configuration.mode, record)
              && StoreObjection(StoreView(), configuration.limits, record).Some? then
        StoreObjection(StoreView(), configuration.limits, record)
      else Objection(summary.View(), summary.metrics.maximum, record)
    }

    /** The record joins the retained ones. */
    method Keep(record: Record, ghost retained: seq<Record>)
      requires StoreOk(StoreView(), configuration.limits, retained)
      requires StoreObjection(StoreView(), configuration.limits, record) == None
      modifies this`records, this`retainedEdges, this`retainedDecisions, this`retainedDomain
      modifies this`nextRecordId, this`idsExhausted
      ensures StoreOk(StoreView(), configuration.limits, retained + [record])
    {
      StoreKeeps(StoreView(), configuration.limits, retained, record);
      ghost var before := StoreView();
      records := records + [StoredRecord(record, nextRecordId)];
      retainedEdges := retainedEdges + record.correlation.Edges();
      if record.observation.DecisionObservation? {
        retainedDecisions := retainedDecisions + 1;
      } else {
        retainedDomain := retainedDomain + 1;
      }
      if nextRecordId == U64_MAX {
        idsExhausted := true;
      } else {
        nextRecordId := nextRecordId + 1;
      }
      assert StoreView() == Stored(before, record);
    }

    /**
     `record`. What was refused leaves records and summary alone; what was accepted is folded into the
     summary, and retained if the mode retains it.
     */
    method Record(record: Record) returns (r: Result<()>)
      requires Valid() && record.InRange()
      modifies this, summary, summary.metrics`series, summary.metrics`log
      ensures Valid() && isFinalized == old(isFinalized)
      ensures configuration.mode == Off ==> r.Ok?
      ensures old(Refusal(record)).Some? ==> r == Throw(old(Refusal(record)).value) && timely == old(timely)
      ensures old(Refusal(record)) == None && r.Throw? ==> r.error == LengthError && !timely
      ensures r.Throw? || configuration.mode == Off ==>
                records == old(records) && summary.View() == old(summary.View())
                && summary.history == old(summary.history)
      ensures r.Ok? && configuration.mode != Off ==>
                summary.history == old(summary.history) + [record] && timely == old(timely)
    {
      hide StoreOk, StoreObjection, Objection, SummaryBuilder.Valid, Retained, Retains, Frames, ConfigurationOk,
           OnTime, Boundary, Held;
      if configuration.mode == Off {
        return Ok(());
      }
      if isFinalized {
        return Throw(LogicError);
      }
      if lastTimestamp.Some? && record.timestamp < lastTimestamp.value {
        return Throw(InvalidArgument);
      }
      var retain := Retains(configuration.mode, record);
      if retain {
        var objection := StoreObjection(StoreView(), configuration.limits, record);
        if objection.Some? {
          return Throw(objection.value);
        }
      }
      r := summary.Validate(record);
      if r.Throw? {
        return;
      }
      r := SampleBefore(record);
      if r.Ok? {
        Fold(record, retain);
      }
    }

    /** What `SamplesOk` will be once the record has been consumed. */
    ghost predicate SampledFor(record: Record)
      reads this, summary, summary.metrics
    {
      if !Samples(configuration.mode) then frames == []
      else timely ==>
        && frames == Frames(summary.metrics.maximum, summary.history + [record], configuration.interval, boundaries)
        && OnTime(configuration.interval, boundaries, Some(record.timestamp))
    }

    /** Every boundary before the record is sampled. */
    method SampleBefore(record: Record) returns (r: Result<()>)
      requires Valid() && record.InRange() && configuration.mode != Off && !isFinalized
      requires lastTimestamp.Some? ==> lastTimestamp.value <= record.timestamp
      modifies this`frames, this`held, this`nextSample, this`boundaries, this`timely
      ensures SamplerOk()
      ensures r.Throw? ==> r.error == LengthError && !timely && Valid()
      ensures r.Ok? ==> timely == old(timely) && SampledFor(record)
    {
      hide StoreOk, SummaryBuilder.Valid, Retained, Frames, ConfigurationOk, OnTime, Boundary, Held, Reached,
           FramesFrom;
      Folded(summary);
      ghost var k, earlier := boundaries, frames;
      r := EmitSamples(record.timestamp, false);
      if r.Throw? {
        timely := false;
        return;
      }
      if timely && Samples(configuration.mode) {
        SampledBefore(summary.metrics.maximum, summary.history, summary.View(), configuration.interval, k, boundaries,
                      earlier, frames, record);
      }
    }

    /** A record nothing objects to is consumed, and retained if it is to be. */
    method Fold(record: Record, retain: bool)
      requires SamplerOk() && summary.Valid() && summary.metrics.maximum == configuration.limits.metricSeries
      requires StoreOk(StoreView(), configuration.limits, Retained(configuration.mode, summary.history))
      requires SampledFor(record) && configuration.mode != Off && !isFinalized && !summary.finalized
      requires record.InRange() && Objection(summary.View(), summary.metrics.maximum, record) == None
      requires retain == Retains(configuration.mode, record)
      requires retain ==> StoreObjection(StoreView(), configuration.limits, record) == None
      modifies this`records, this`retainedEdges, this`retainedDecisions, this`retainedDomain
      modifies this`nextRecordId, this`idsExhausted, this`lastTimestamp
      modifies summary, summary.metrics`series, summary.metrics`log
      ensures Valid() && summary.history == old(summary.history) + [record]
    {
      hide StoreOk, StoreObjection, Objection, SummaryBuilder.Valid, Retained, Retains, Frames, ConfigurationOk,
           OnTime, Boundary, Held, Consumed;
      RetainedNext(configuration.mode, summary.history, record);
      ghost var retained := Retained(configuration.mode, summary.history);
      var r := summary.Consume(record);
      assert r.Ok?;
      if retain {
        Keep(record, retained);
      }
      lastTimestamp := Some(record.timestamp);
    }

    /** `finalize`: the boundaries up to the end are sampled, the end included, and the summary closed. */
    method Finalize(end: nat) returns (r: Result<()>)
      requires Valid() && end <= U64_MAX
      modifies this, summary
      ensures Valid() && records == old(records) && summary.history == old(summary.history)
      ensures old(isFinalized) ==> r == Throw(LogicError)
      ensures !old(isFinalized) && configuration.mode != Off ==>
                (r == Throw(InvalidArgument) <==> old(lastTimestamp).Some? && end < old(lastTimestamp).value)
      ensures r.Throw? ==> isFinalized == old(isFinalized) && summary.View() == old(summary.View())
      ensures r.Throw? && r.error == LengthError ==> !timely
      ensures r.Ok? ==> isFinalized && lastTimestamp == Some(end) && timely == old(timely)
      ensures r.Ok? && configuration.mode != Off ==> summary.View() == Closed(old(summary.View()), end)
    {
      hide StoreOk, SummaryBuilder.Valid, Retained, Frames, ConfigurationOk, OnTime, Boundary, Held, Closed, Reached;
      if isFinalized {
        return Throw(LogicError);
      }
      if configuration.mode != Off && lastTimestamp.Some? && end < lastTimestamp.value {
        return Throw(InvalidArgument);
      }
      r := SampleToEnd(end);
      if r.Throw? {
        return;
      }
      if configuration.mode != Off {
        r := summary.Finalize(end);
        assert r.Ok?;
      }
      lastTimestamp, isFinalized := Some(end), true;
    }

    /** Every boundary up to the end is sampled, the end included. */
    method SampleToEnd(end: nat) returns (r: Result<()>)
      requires Valid() && end <= U64_MAX && !isFinalized
      requires configuration.mode != Off && lastTimestamp.Some? ==> lastTimestamp.value <= end
      modifies this`frames, this`held, this`nextSample, this`boundaries, this`timely
      ensures SamplerOk()
      ensures r.Throw? ==> r.error == LengthError && !timely && Valid()
      ensures r.Ok? ==> timely == old(timely)
      ensures r.Ok? && !Samples(configuration.mode) ==> frames == []
      ensures r.Ok? && Samples(configuration.mode) && timely ==>
                && frames == Frames(summary.metrics.maximum, summary.history, configuration.interval, boundaries)
                && boundaries == Reached(configuration.interval, end)
    {
      hide StoreOk, SummaryBuilder.Valid, Retained, Frames, ConfigurationOk, OnTime, Boundary, Held, Reached,
           FramesFrom;
      Folded(summary);
      ghost var k, earlier := boundaries, frames;
      r := EmitSamples(end, true);
      if r.Throw? {
        timely := false;
        return;
      }
      if timely && Samples(configuration.mode) {
        SampledToEnd(summary.metrics.maximum, summary.history, summary.View(), configuration.interval, k, boundaries,
                     earlier, frames, end);
      }
    }
  }

  /** A summary that has not been finalized is the fold of its records, and ends where they end. */
  lemma Folded(summary: SummaryBuilder)
    requires summary.Valid()
    ensures !summary.finalized ==>
              Replay(summary.metrics.maximum, summary.history) == Some(summary.View())
              && summary.last == End(summary.history)
  {
    ReplayExplained(summary.metrics.maximum, summary.history);
  }

  /** Sampling before a record is consumed keeps every sample at the state of its boundary. */
  lemma SampledBefore(
    maximum: nat, history: seq<Record>, s: Summary, interval: nat, k: nat, until: nat, frames: seq<SampleFrame>,
    all: seq<SampleFrame>, r: Record)
    requires Replay(maximum, history) == Some(s) && interval > 0 && OnTime(interval, k, End(history))
    requires history != [] ==> End(history).value <= r.timestamp
    requires until == if Reached(interval, r.timestamp - 1) < k then k else Reached(interval, r.timestamp - 1)
    requires frames == Frames(maximum, history, interval, k)
    requires all == frames + FramesFrom(s.series, interval, k, until)
    ensures all == Frames(maximum, history + [r], interval, until) && OnTime(interval, until, Some(r.timestamp))
  {
    hide Replay, Frames, FramesFrom, Reached;
    FramesExtend(maximum, history, s, interval, k, until);
    IsReached(interval, r.timestamp - 1, until);
    IsReached(interval, r.timestamp - 1, until + 1);
    FramesKept(maximum, history, r, interval, until);
  }

  lemma SampledToEnd(
    maximum: nat, history: seq<Record>, s: Summary, interval: nat, k: nat, until: nat, frames: seq<SampleFrame>,
    all: seq<SampleFrame>, end: nat)
    requires Replay(maximum, history) == Some(s) && interval > 0 && OnTime(interval, k, End(history))
    requires history != [] ==> End(history).value <= end
    requires until == if Reached(interval, end) < k then k else Reached(interval, end)
    requires frames == Frames(maximum, history, interval, k)
    requires all == frames + FramesFrom(s.series, interval, k, until)
    ensures all == Frames(maximum, history, interval, until) && until == Reached(interval, end)
  {
    hide Replay, Frames, FramesFrom, Reached;
    FramesExtend(maximum, history, s, interval, k, until);
    IsReached(interval, end, k);
  }

  /** The records a session holds, without their IDs. */
  ghost function Plain(records: seq<StoredRecord>): (plain: seq<Record>)
    ensures |plain| == |records| && forall i :: 0 <= i < |records| ==> plain[i] == records[i].record
  {
    if records == [] then [] else Plain(records[..|records| - 1]) + [records[|records| - 1].record]
  }

  /**
   In Full mode the live summary is at every moment the fold of `consume` over the retained records,
   and once finalized that fold closed at the final time.
   */
  lemma FullModeReplays(session: TelemetrySession)
    requires session.Valid() && session.configuration.mode == Full
    ensures var fold := Replay(session.configuration.limits.metricSeries, Plain(session.records));
            && fold.Some?
            && session.summary.View() == if !session.isFinalized then fold.value
                                         else if session.lastTimestamp.Some? then
                                           Closed(fold.value, session.lastTimestamp.value)
                                         else fold.value
  {
    hide Replay, Closed, Log, Held, Frames, RegistryOk, AllInRange, Edges, Decisions;
    FullRetainsAll(session.summary.history);
    assert Plain(session.records) == session.summary.history;
  }

  lemma FramesNext(
    before: seq<SampleFrame>, frames: seq<SampleFrame>, series: SeriesTable, interval: nat, k: nat, until: nat)
    requires k < until && frames == before + FramesFrom(series, interval, k, until - 1)
    ensures frames + FrameOf(series, until * interval) == before + FramesFrom(series, interval, k, until)
  {
    hide FrameOf;
  }

  /** The next boundary is due exactly while there are boundaries up to the limit that have not been passed. */
  lemma Due(interval: nat, limit: int, k: nat)
    requires interval > 0 && limit <= U64_MAX
    ensures Boundary(interval, k + 1).Some? && Boundary(interval, k + 1).value <= limit
            <==> k + 1 <= Reached(interval, limit)
  {
    IsReached(interval, limit, k + 1);
  }

  lemma NextBoundary(interval: nat, k: nat)
    ensures (k + 1) * interval == k * interval + interval
  {
  }

  /** Whole intervals from the next boundary lead to the last boundary up to the limit. */
  lemma Skipped(interval: nat, limit: nat, k: nat)
    requires interval > 0 && Boundary(interval, k + 1).Some? && Boundary(interval, k + 1).value <= limit
    ensures var first := Boundary(interval, k + 1).value;
            var complete := (limit - first) / interval;
            && Skip(interval, first, limit) == Boundary(interval, k + 1 + complete + 1)
            && Reached(interval, limit) == k + 1 + complete
  {
    var first := (k + 1) * interval;
    var complete := (limit - first) / interval;
    assert complete * interval <= limit - first < complete * interval + interval;
    Distributes(k + 1, complete, interval);
    NextBoundary(interval, k + 1 + complete);
    IsReached(interval, limit, k + 1 + complete);
    IsReached(interval, limit, k + 1 + complete + 1);
  }

  lemma Distributes(a: nat, b: nat, d: nat)
    ensures (a + b) * d == a * d + b * d
  {
  }
}
