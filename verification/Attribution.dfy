/**
 The live telemetry summary of `simulator/src/telemetry/summary.cpp`: metric series, and for each job
 how much time it has spent in each phase.

 What the summary must come to is defined on the observations alone: the phase of a job at an instant,
 the instants it was in a phase, and the values each series was given.
 */
module Attribution {
  import opened Prelude
  import opened Metrics

  datatype Transition =
    | Arrived | Waiting | Admitted | ComputeStarted | ComputeCompleted | CollectiveStarted | CollectiveCompleted
    | StepCompleted | Succeeded | Failed | Cancelled | SynchronizationStarted | StragglerStarted
  {
    predicate Ends() {
      this in {Succeeded, Failed, Cancelled}
    }
  }

  datatype Phase =
    | SchedulingWait | Compute | Communication | SynchronizationWait | StragglerDelay | TerminalOther | Terminal

  /** What a record correlates with; `others` counts the entities the summary does not look at. */
  datatype Correlation = Correlation(job: Option<nat>, collective: Option<nat>, others: nat) {
    function Edges(): nat {
      others + (if job.Some? then 1 else 0) + (if collective.Some? then 1 else 0)
    }
  }

  datatype Observation =
    | CounterObservation(key: Key, value: nat)
    | GaugeObservation(key: Key, value: nat)
    | HistogramObservation(key: Key, value: nat)
    | JobObservation(transition: Transition)
    | DecisionObservation
    | DomainObservation
  {
    predicate IsMetric() {
      CounterObservation? || GaugeObservation? || HistogramObservation?
    }

    function Kind(): MetricKind
      requires IsMetric()
    {
      if CounterObservation? then Counter else if GaugeObservation? then Gauge else Histogram
    }
  }

  datatype Record = Record(timestamp: nat, correlation: Correlation, observation: Observation) {
    /** Times and values are 64-bit words. */
    predicate InRange() {
      timestamp <= U64_MAX && (observation.IsMetric() ==> observation.value <= U64_MAX)
    }
  }

  datatype JobAttribution = JobAttribution(
    schedulingWait: nat, compute: nat, communication: nat, synchronizationWait: nat, stragglerDelay: nat,
    terminalOther: nat, terminal: bool)
  {
    function In(phase: Phase): nat {
      match phase
      case SchedulingWait => schedulingWait
      case Compute => compute
      case Communication => communication
      case SynchronizationWait => synchronizationWait
      case StragglerDelay => stragglerDelay
      case TerminalOther => terminalOther
      case Terminal => 0
    }

    function Total(): nat {
      schedulingWait + compute + communication + synchronizationWait + stragglerDelay + terminalOther
    }
  }

  datatype JobState = JobState(attribution: JobAttribution, last: nat, phase: Phase)

  datatype Summary = Summary(series: SeriesTable, jobs: map<nat, JobState>, last: Option<nat>)

  // The transition of one job

  function NextPhase(current: Phase, t: Transition, collective: bool): Phase {
    var kept := current == Compute || current == StragglerDelay;
    match t
    case Waiting => SchedulingWait
    case Admitted => if kept then current else TerminalOther
    case CollectiveCompleted => if kept then current else TerminalOther
    case StepCompleted => if kept then current else TerminalOther
    case ComputeStarted => Compute
    case StragglerStarted => StragglerDelay
    case SynchronizationStarted => SynchronizationWait
    case ComputeCompleted => if collective then Communication else SynchronizationWait
    case CollectiveStarted => if kept then current else Communication
    case Succeeded => Terminal
    case Failed => Terminal
    case Cancelled => Terminal
    case Arrived => SchedulingWait
  }

  /** `add_interval`. */
  function Spent(a: JobAttribution, phase: Phase, duration: nat): Result<JobAttribution> {
    if phase == Terminal then Ok(a)
    else if a.In(phase) + duration > U64_MAX then Throw(OverflowError)
    else
      match phase
      case SchedulingWait => Ok(a.(schedulingWait := a.schedulingWait + duration))
      case Compute => Ok(a.(compute := a.compute + duration))
      case Communication => Ok(a.(communication := a.communication + duration))
      case SynchronizationWait => Ok(a.(synchronizationWait := a.synchronizationWait + duration))
      case StragglerDelay => Ok(a.(stragglerDelay := a.stragglerDelay + duration))
      case TerminalOther => Ok(a.(terminalOther := a.terminalOther + duration))
  }

  /** `transition`. */
  function Moved(current: Option<JobState>, timestamp: nat, t: Transition, collective: bool): Result<JobState> {
    if current == None then
      if t != Arrived && !t.Ends() then Throw(LogicError)
      else
        Ok(JobState(JobAttribution(0, 0, 0, 0, 0, 0, t.Ends()), timestamp, if t.Ends() then Terminal
                    else SchedulingWait))
    else
      var state := current.value;
      if state.attribution.terminal || t == Arrived then Throw(LogicError)
      else if timestamp < state.last then Throw(InvalidArgument)
      else
        var spent := Spent(state.attribution, state.phase, timestamp - state.last);
        if spent.Throw? then Throw(spent.error)
        else
          var phase := NextPhase(state.phase, t, collective);
          Ok(JobState(spent.value.(terminal := phase == Terminal), timestamp, phase))
  }

  // The terminal metrics of a job

  function CommunicationKey(): Key { Key(13, map[]) }

  function SynchronizationKey(): Key { Key(14, map[]) }

  function StragglerKey(): Key { Key(15, map[]) }

  function MissingOne(series: SeriesTable, key: Key): nat {
    if key in series then 0 else 1
  }

  /** `validate_terminal_metrics`. */
  function TerminalObjection(series: SeriesTable, maximum: nat, a: JobAttribution): Option<Error> {
    var first := Preflight(series, maximum, Counter, CommunicationKey(), a.communication);
    var second := Preflight(series, maximum, Counter, SynchronizationKey(), a.synchronizationWait);
    var third := Preflight(series, maximum, Counter, StragglerKey(), a.stragglerDelay);
    var missing := MissingOne(series, CommunicationKey()) + MissingOne(series, SynchronizationKey())
                   + MissingOne(series, StragglerKey());
    if first.Some? then first
    else if second.Some? then second
    else if third.Some? then third
    else if |series| + missing > maximum then Some(LengthError)
    else None
  }

  /** `apply_terminal_metrics`. */
  function TerminalApplied(series: SeriesTable, a: JobAttribution): SeriesTable {
    var first := Updated(series, CommunicationKey(), a.communication);
    var second := Updated(first, SynchronizationKey(), a.synchronizationWait);
    Updated(second, StragglerKey(), a.stragglerDelay)
  }

  // The summary

  function Current(s: Summary, job: nat): Option<JobState> {
    if job in s.jobs then Some(s.jobs[job]) else None
  }

  function JobObjection(s: Summary, maximum: nat, r: Record): Option<Error>
    requires r.observation.JobObservation?
  {
    if r.correlation.job == None then Some(InvalidArgument)
    else
      var next := Moved(Current(s, r.correlation.job.value), r.timestamp, r.observation.transition,
                        r.correlation.collective.Some?);
      if next.Throw? then Some(next.error)
      else if next.value.attribution.terminal then TerminalObjection(s.series, maximum, next.value.attribution)
      else None
  }

  /** Why `validate` throws, if it does, before the summary is finalized. */
  function Objection(s: Summary, maximum: nat, r: Record): Option<Error> {
    if s.last.Some? && r.timestamp < s.last.value then Some(InvalidArgument)
    else if r.observation.IsMetric() then
      Preflight(s.series, maximum, r.observation.Kind(), r.observation.key, r.observation.value)
    else if r.observation.JobObservation? then JobObjection(s, maximum, r)
    else None
  }

  /** What `consume` makes of a record it does not object to. */
  function Consumed(s: Summary, maximum: nat, r: Record): Summary
    requires Objection(s, maximum, r) == None
  {
    if r.observation.IsMetric() then
      s.(series := Updated(s.series, r.observation.key, r.observation.value), last := Some(r.timestamp))
    else if r.observation.JobObservation? then
      var job := r.correlation.job.value;
      var next := Moved(Current(s, job), r.timestamp, r.observation.transition, r.correlation.collective.Some?).value;
      Summary(if next.attribution.terminal then TerminalApplied(s.series, next.attribution) else s.series,
              s.jobs[job := next], Some(r.timestamp))
    else s.(last := Some(r.timestamp))
  }

  /** The fold of `consume` over the records; none if one of them is objected to. */
  function Replay(maximum: nat, history: seq<Record>): Option<Summary> {
    if history == [] then Some(Summary(map[], map[], None))
    else
      var k := |history| - 1;
      var s := Replay(maximum, history[..k]);
      if s == None || Objection(s.value, maximum, history[k]).Some? then None
      else Some(Consumed(s.value, maximum, history[k]))
  }

  // What the observations say

  predicate Mine(r: Record, job: nat) {
    r.observation.JobObservation? && r.correlation.job == Some(job)
  }

  ghost function FirstAt(history: seq<Record>, job: nat): Option<nat> {
    if history == [] then None
    else
      var k := |history| - 1;
      var earlier := FirstAt(history[..k], job);
      if earlier == None && Mine(history[k], job) then Some(history[k].timestamp) else earlier
  }

  ghost function LastAt(history: seq<Record>, job: nat): Option<nat> {
    if history == [] then None
    else
      var k := |history| - 1;
      if Mine(history[k], job) then Some(history[k].timestamp) else LastAt(history[..k], job)
  }

  /** The phase a job is in once all the records have been made. */
  ghost function PhaseAfter(history: seq<Record>, job: nat): Option<Phase> {
    if history == [] then None
    else
      var k := |history| - 1;
      var r, before := history[k], PhaseAfter(history[..k], job);
      if !Mine(r, job) then before
      else if before == None then Some(if r.observation.transition.Ends() then Terminal else SchedulingWait)
      else Some(NextPhase(before.value, r.observation.transition, r.correlation.collective.Some?))
  }

  /** The phase a job is in at an instant, going by the records up to that instant. */
  ghost function PhaseAt(history: seq<Record>, job: nat, instant: nat): Option<Phase> {
    if history == [] then None
    else if history[|history| - 1].timestamp <= instant then PhaseAfter(history, job)
    else PhaseAt(history[..|history| - 1], job, instant)
  }

  /** How many nanoseconds of [from, until) the job was in a phase. */
  ghost function TimeIn(history: seq<Record>, job: nat, phase: Phase, from: nat, until: nat): nat {
    if until <= from then 0
    else TimeIn(history, job, phase, from, until - 1) + (if PhaseAt(history, job, until - 1) == Some(phase) then 1
                                                         else 0)
  }

  /** The time from a job's first record to its last that it was in a phase. */
  ghost function TimeObserved(history: seq<Record>, job: nat, phase: Phase): nat {
    var first, last := FirstAt(history, job), LastAt(history, job);
    if first == None || last == None then 0 else TimeIn(history, job, phase, first.value, last.value)
  }

  /** The values the last record of a history hands to metric series. */
  ghost function Entries(history: seq<Record>): seq<(Key, nat)>
    requires history != []
  {
    var r := history[|history| - 1];
    if r.observation.IsMetric() then [(r.observation.key, r.observation.value)]
    else if r.observation.JobObservation? && r.observation.transition.Ends() && r.correlation.job.Some? then
      var job := r.correlation.job.value;
      [(CommunicationKey(), TimeObserved(history, job, Communication)),
       (SynchronizationKey(), TimeObserved(history, job, SynchronizationWait)),
       (StragglerKey(), TimeObserved(history, job, StragglerDelay))]
    else []
  }

  ghost function Log(history: seq<Record>): seq<(Key, nat)> {
    if history == [] then [] else Log(history[..|history| - 1]) + Entries(history)
  }

  /** The state of a job up to `until`: its phase, and in each bucket the time spent in that phase. */
  ghost predicate AttributedTo(history: seq<Record>, job: nat, state: JobState, until: nat) {
    && PhaseAfter(history, job) == Some(state.phase)
    && state.attribution.terminal == (state.phase == Terminal)
    && state.last == until
    && FirstAt(history, job).Some? && FirstAt(history, job).value <= until <= U64_MAX
    && (forall phase: Phase :: phase != Terminal ==>
          state.attribution.In(phase) == TimeIn(history, job, phase, FirstAt(history, job).value, until))
    && state.attribution.Total() == until - FirstAt(history, job).value
  }

  ghost predicate JobOk(history: seq<Record>, job: nat, state: JobState) {
    LastAt(history, job) == Some(state.last) && AttributedTo(history, job, state, state.last)
  }

  ghost predicate JobsOk(history: seq<Record>, jobs: map<nat, JobState>) {
    && (forall job :: job in jobs ==> JobOk(history, job, jobs[job]))
    && (forall job: nat :: job !in jobs ==> PhaseAfter(history, job) == None && FirstAt(history, job) == None)
  }

  ghost predicate Ordered(history: seq<Record>) {
    forall i, j :: 0 <= i < j < |history| ==> history[i].timestamp <= history[j].timestamp
  }

  ghost predicate AllInRange(history: seq<Record>) {
    forall i :: 0 <= i < |history| ==> history[i].InRange()
  }

  ghost function End(history: seq<Record>): Option<nat> {
    if history == [] then None else Some(history[|history| - 1].timestamp)
  }

  /** The summary is what the observations say. */
  ghost predicate Explained(maximum: nat, history: seq<Record>, s: Summary) {
    && Ordered(history) && s.last == End(history)
    && RegistryOk(s.series, maximum, Log(history))
    && JobsOk(history, s.jobs)
  }

  // Time

  lemma Appended(history: seq<Record>, r: Record)
    ensures (history + [r])[..|history|] == history && (history + [r])[|history|] == r
  {
  }

  /** A record changes nothing about the instants before it. */
  lemma {:induction false} TimeKept(history: seq<Record>, r: Record, job: nat, phase: Phase, from: nat, until: nat)
    requires until <= r.timestamp
    ensures TimeIn(history + [r], job, phase, from, until) == TimeIn(history, job, phase, from, until)
    decreases until
  {
    Appended(history, r);
    if from < until {
      TimeKept(history, r, job, phase, from, until - 1);
    }
  }

  lemma {:induction false} LastBounds(history: seq<Record>, job: nat)
    requires Ordered(history) && history != []
    ensures LastAt(history, job).Some? ==> LastAt(history, job).value <= history[|history| - 1].timestamp
  {
    var k := |history| - 1;
    if !Mine(history[k], job) && k > 0 {
      LastBounds(history[..k], job);
    }
  }

  /** After its last record a job stays in the phase it is in. */
  lemma {:induction false} PhaseHolds(history: seq<Record>, job: nat, instant: nat)
    requires Ordered(history) && LastAt(history, job).Some? && LastAt(history, job).value <= instant
    ensures PhaseAt(history, job, instant) == PhaseAfter(history, job)
  {
    var k := |history| - 1;
    if history[k].timestamp > instant {
      PhaseHolds(history[..k], job, instant);
    }
  }

  lemma {:induction false} TimeGrows(history: seq<Record>, job: nat, phase: Phase, from: nat, until: nat)
    requires Ordered(history) && LastAt(history, job).Some? && from <= LastAt(history, job).value <= until
    ensures TimeIn(history, job, phase, from, until) ==
            TimeIn(history, job, phase, from, LastAt(history, job).value)
            + (if PhaseAfter(history, job) == Some(phase) then until - LastAt(history, job).value else 0)
    decreases until
  {
    if LastAt(history, job).value < until {
      TimeGrows(history, job, phase, from, until - 1);
      PhaseHolds(history, job, until - 1);
    }
  }

  // Steps of one job

  lemma SpentIn(a: JobAttribution, phase: Phase, duration: nat)
    requires Spent(a, phase, duration).Ok? && phase != Terminal
    ensures var b := Spent(a, phase, duration).value;
            && b.terminal == a.terminal && b.Total() == a.Total() + duration
            && forall p: Phase :: b.In(p) == a.In(p) + (if p == phase then duration else 0)
  {
  }

  /** The time up to `until` is spent in the phase the job is in, and never overflows. */
  lemma SpendsUntil(history: seq<Record>, job: nat, state: JobState, until: nat)
    requires Ordered(history) && JobOk(history, job, state) && state.last <= until <= U64_MAX
    requires !state.attribution.terminal
    ensures var spent := Spent(state.attribution, state.phase, until - state.last);
            spent.Ok? && AttributedTo(history, job, JobState(spent.value, until, state.phase), until)
  {
    hide TimeIn, PhaseAfter, FirstAt, LastAt, Ordered;
    assert state.attribution.In(state.phase) <= state.attribution.Total();
    SpentIn(state.attribution, state.phase, until - state.last);
    var from := FirstAt(history, job).value;
    forall phase: Phase ensures TimeIn(history, job, phase, from, until) ==
                                TimeIn(history, job, phase, from, state.last)
                                + (if phase == state.phase then until - state.last else 0)
    {
      TimeGrows(history, job, phase, from, until);
    }
  }

  lemma JobStarts(history: seq<Record>, job: nat, r: Record)
    requires PhaseAfter(history, job) == None && FirstAt(history, job) == None && Mine(r, job) && r.InRange()
    ensures var next := Moved(None, r.timestamp, r.observation.transition, r.correlation.collective.Some?);
            next.Ok? ==> JobOk(history + [r], job, next.value)
  {
    Appended(history, r);
  }

  lemma JobMoves(history: seq<Record>, job: nat, state: JobState, r: Record)
    requires Ordered(history) && JobOk(history, job, state) && Mine(r, job) && r.InRange()
    ensures var next := Moved(Some(state), r.timestamp, r.observation.transition, r.correlation.collective.Some?);
            && (next.Throw? ==> next.error in {LogicError, InvalidArgument})
            && (next.Ok? ==> JobOk(history + [r], job, next.value))
  {
    hide TimeIn, NextPhase, Ordered, Spent, FirstAt;
    if state.last <= r.timestamp && !state.attribution.terminal {
      SpendsUntil(history, job, state, r.timestamp);
      Appended(history, r);
      var spent := Spent(state.attribution, state.phase, r.timestamp - state.last).value;
      AttributionKept(history, job, JobState(spent, r.timestamp, state.phase), r);
    }
  }

  /** The time up to a record is as it was before the record. */
  lemma AttributionKept(history: seq<Record>, job: nat, state: JobState, r: Record)
    requires AttributedTo(history, job, state, state.last) && state.last <= r.timestamp
    ensures FirstAt(history + [r], job) == FirstAt(history, job)
    ensures forall phase: Phase :: phase != Terminal ==>
              state.attribution.In(phase)
              == TimeIn(history + [r], job, phase, FirstAt(history, job).value, state.last)
  {
    hide TimeIn, PhaseAfter;
    Appended(history, r);
    forall phase: Phase | phase != Terminal
      ensures state.attribution.In(phase)
           == TimeIn(history + [r], job, phase, FirstAt(history, job).value, state.last)
    {
      TimeKept(history, r, job, phase, FirstAt(history, job).value, state.last);
    }
  }

  lemma JobStays(history: seq<Record>, job: nat, state: JobState, r: Record)
    requires JobOk(history, job, state) && state.last <= r.timestamp && !Mine(r, job)
    ensures JobOk(history + [r], job, state)
  {
    hide TimeIn;
    Appended(history, r);
    AttributionKept(history, job, state, r);
  }

  lemma StrangerStays(history: seq<Record>, job: nat, r: Record)
    requires PhaseAfter(history, job) == None && FirstAt(history, job) == None && !Mine(r, job)
    ensures PhaseAfter(history + [r], job) == None && FirstAt(history + [r], job) == None
  {
    Appended(history, r);
  }

  /** A record that is no job's business leaves every job as it is. */
  lemma JobsStay(history: seq<Record>, jobs: map<nat, JobState>, r: Record, except: Option<nat>)
    requires Ordered(history) && JobsOk(history, jobs) && (history != [] ==> End(history).value <= r.timestamp)
    requires forall job: nat :: Mine(r, job) ==> except == Some(job)
    ensures forall job :: job in jobs && Some(job) != except ==> JobOk(history + [r], job, jobs[job])
    ensures forall job: nat :: job !in jobs && Some(job) != except ==>
              PhaseAfter(history + [r], job) == None && FirstAt(history + [r], job) == None
  {
    hide JobOk, PhaseAfter, FirstAt, Ordered;
    forall job | job in jobs && Some(job) != except ensures JobOk(history + [r], job, jobs[job]) {
      LastSeen(history, job, jobs[job]);
      JobStays(history, job, jobs[job], r);
    }
    forall job: nat | job !in jobs && Some(job) != except
      ensures PhaseAfter(history + [r], job) == None && FirstAt(history + [r], job) == None
    {
      StrangerStays(history, job, r);
    }
  }

  lemma LastSeen(history: seq<Record>, job: nat, state: JobState)
    requires Ordered(history) && JobOk(history, job, state)
    ensures history != [] && state.last <= End(history).value
  {
    LastBounds(history, job);
  }

  // Terminal metrics

  lemma PreflightKept(series: SeriesTable, maximum: nat, key: Key, value: nat, other: Key, amount: nat)
    requires Preflight(series, maximum, Counter, other, amount) == None && key != other
    requires other in series || |Updated(series, key, value)| < maximum
    ensures Preflight(Updated(series, key, value), maximum, Counter, other, amount) == None
  {
    hide Define, Overflows, Bumped, Blank;
  }

  lemma UpdatedSize(series: SeriesTable, key: Key, value: nat)
    requires Define(key.metric).Some?
    ensures |Updated(series, key, value)| == |series| + MissingOne(series, key)
    ensures forall other :: other != key ==> (other in Updated(series, key, value) <==> other in series)
  {
    hide Define, Bumped, Blank;
    Grown(series, key, Updated(series, key, value)[key]);
  }

  /** Once the terminal metrics pass their preflight, none of the three increments can fail. */
  lemma TerminalFits(series: SeriesTable, maximum: nat, a: JobAttribution)
    requires TerminalObjection(series, maximum, a) == None
    ensures var first := Updated(series, CommunicationKey(), a.communication);
            var second := Updated(first, SynchronizationKey(), a.synchronizationWait);
            && Preflight(series, maximum, Counter, CommunicationKey(), a.communication) == None
            && Preflight(first, maximum, Counter, SynchronizationKey(), a.synchronizationWait) == None
            && Preflight(second, maximum, Counter, StragglerKey(), a.stragglerDelay) == None
  {
    hide Define, Preflight, Updated;
    var c, y, g := CommunicationKey(), SynchronizationKey(), StragglerKey();
    var first := Updated(series, c, a.communication);
    Passed(series, maximum, Counter, c, a.communication);
    Passed(series, maximum, Counter, y, a.synchronizationWait);
    UpdatedSize(series, c, a.communication);
    PreflightKept(series, maximum, c, a.communication, y, a.synchronizationWait);
    PreflightKept(series, maximum, c, a.communication, g, a.stragglerDelay);
    UpdatedSize(first, y, a.synchronizationWait);
    PreflightKept(first, maximum, y, a.synchronizationWait, g, a.stragglerDelay);
  }

  lemma TerminalKeeps(series: SeriesTable, maximum: nat, log: seq<(Key, nat)>, a: JobAttribution)
    requires RegistryOk(series, maximum, log) && TerminalObjection(series, maximum, a) == None && a.Total() <= U64_MAX
    ensures RegistryOk(TerminalApplied(series, a), maximum,
                       log + [(CommunicationKey(), a.communication), (SynchronizationKey(), a.synchronizationWait),
                              (StragglerKey(), a.stragglerDelay)])
  {
    hide RegistryOk, Preflight, Updated;
    TerminalFits(series, maximum, a);
    hide TerminalObjection;
    var c, y, g := (CommunicationKey(), a.communication), (SynchronizationKey(), a.synchronizationWait),
                   (StragglerKey(), a.stragglerDelay);
    UpdateKeeps(series, maximum, log, Counter, c.0, c.1);
    var first := Updated(series, c.0, c.1);
    UpdateKeeps(first, maximum, log + [c], Counter, y.0, y.1);
    UpdateKeeps(Updated(first, y.0, y.1), maximum, log + [c] + [y], Counter, g.0, g.1);
    assert log + [c] + [y] + [g] == log + [c, y, g];
  }

  // The whole summary

  lemma OrderedNext(history: seq<Record>, r: Record)
    requires Ordered(history) && (history != [] ==> End(history).value <= r.timestamp)
    ensures Ordered(history + [r]) && End(history + [r]) == Some(r.timestamp)
  {
    var all := history + [r];
    forall i, j | 0 <= i < j < |all| ensures all[i].timestamp <= all[j].timestamp {
      assert i < |history| - 1 ==> history[i].timestamp <= history[|history| - 1].timestamp;
    }
  }

  lemma LogNext(history: seq<Record>, r: Record)
    ensures Log(history + [r]) == Log(history) + Entries(history + [r])
  {
    Appended(history, r);
  }

  /** A job's record moves that job and no other. */
  lemma JobRecordKeeps(maximum: nat, history: seq<Record>, s: Summary, r: Record)
    requires Explained(maximum, history, s) && r.InRange() && r.observation.JobObservation?
    requires Objection(s, maximum, r) == None
    ensures Explained(maximum, history + [r], Consumed(s, maximum, r))
  {
    hide RegistryOk, JobOk, Ordered, TerminalObjection, TerminalApplied, FirstAt, PhaseAfter, Log;
    var job := r.correlation.job.value;
    OrderedNext(history, r);
    JobsStay(history, s.jobs, r, Some(job));
    var next := Moved(Current(s, job), r.timestamp, r.observation.transition, r.correlation.collective.Some?).value;
    assert JobOk(history + [r], job, next) by {
      if job in s.jobs {
        JobMoves(history, job, s.jobs[job], r);
      } else {
        JobStarts(history, job, r);
      }
    }
    LogNext(history, r);
    EndsAre(Current(s, job), r);
    hide Moved;
    if next.attribution.terminal {
      TotalFits(history + [r], job, next);
      TerminalKeeps(s.series, maximum, Log(history), next.attribution);
      TerminalEntries(history, job, r, next);
    } else {
      assert Log(history) + [] == Log(history);
    }
  }

  /** A job's state is terminal exactly after a terminal transition. */
  lemma EndsAre(current: Option<JobState>, r: Record)
    requires r.observation.JobObservation?
    ensures var next := Moved(current, r.timestamp, r.observation.transition, r.correlation.collective.Some?);
            next.Ok? ==> (next.value.attribution.terminal <==> r.observation.transition.Ends())
  {
  }

  lemma TotalFits(history: seq<Record>, job: nat, state: JobState)
    requires JobOk(history, job, state)
    ensures state.attribution.Total() <= U64_MAX
  {
  }

  /** What a job's end adds to the metrics is the time the records show. */
  lemma TerminalEntries(history: seq<Record>, job: nat, r: Record, state: JobState)
    requires Mine(r, job) && r.observation.transition.Ends() && JobOk(history + [r], job, state)
    ensures Entries(history + [r]) ==
            [(CommunicationKey(), state.attribution.communication),
             (SynchronizationKey(), state.attribution.synchronizationWait),
             (StragglerKey(), state.attribution.stragglerDelay)]
  {
    hide TimeIn, FirstAt, PhaseAfter, LastAt;
    Appended(history, r);
    assert state.attribution.In(Communication) == TimeObserved(history + [r], job, Communication);
    assert state.attribution.In(SynchronizationWait) == TimeObserved(history + [r], job, SynchronizationWait);
    assert state.attribution.In(StragglerDelay) == TimeObserved(history + [r], job, StragglerDelay);
  }

  lemma RecordKeeps(maximum: nat, history: seq<Record>, s: Summary, r: Record)
    requires Explained(maximum, history, s) && r.InRange() && Objection(s, maximum, r) == None
    ensures Explained(maximum, history + [r], Consumed(s, maximum, r))
  {
    hide RegistryOk, JobOk, Ordered, FirstAt, PhaseAfter, Log, Preflight, Updated;
    if r.observation.JobObservation? {
      JobRecordKeeps(maximum, history, s, r);
    } else {
      OrderedNext(history, r);
      JobsStay(history, s.jobs, r, None);
      LogNext(history, r);
      Appended(history, r);
      if r.observation.IsMetric() {
        UpdateKeeps(s.series, maximum, Log(history), r.observation.Kind(), r.observation.key, r.observation.value);
      } else {
        assert Log(history) + [] == Log(history);
      }
    }
  }

  /**
   A summary that folds the records is what the records say: every series holds exactly the values it
   was given, and every job's buckets are the nanoseconds it spent in each phase, which add up to the
   time from its first record to its last.
   */
  lemma {:induction false} ReplayExplained(maximum: nat, history: seq<Record>)
    requires AllInRange(history)
    ensures Replay(maximum, history).Some? ==> Explained(maximum, history, Replay(maximum, history).value)
  {
    if history == [] {
      NothingExplained(maximum);
    } else {
      hide Explained, Objection, Consumed;
      var k := |history| - 1;
      ReplayExplained(maximum, history[..k]);
      var s := Replay(maximum, history[..k]);
      if s.Some? && Objection(s.value, maximum, history[k]) == None {
        RecordKeeps(maximum, history[..k], s.value, history[k]);
        assert history[..k] + [history[k]] == history;
      }
    }
  }

  lemma NothingExplained(maximum: nat)
    ensures Explained(maximum, [], Summary(map[], map[], None))
  {
  }

  /** Durations never overflow: a record of an explained summary is not refused for that. */
  lemma DurationsFit(maximum: nat, history: seq<Record>, s: Summary, r: Record)
    requires Explained(maximum, history, s) && r.InRange() && r.observation.JobObservation? && r.correlation.job.Some?
    ensures var next := Moved(Current(s, r.correlation.job.value), r.timestamp, r.observation.transition,
                              r.correlation.collective.Some?);
            next.Throw? ==> next.error in {LogicError, InvalidArgument}
  {
    hide RegistryOk, JobOk, Ordered, FirstAt, PhaseAfter, Log;
    var job := r.correlation.job.value;
    if job in s.jobs {
      JobMoves(history, job, s.jobs[job], r);
    }
  }

  // Finalization

  /** A job that has not ended is accounted up to the end of the run. */
  function ClosedJob(state: JobState, end: nat): JobState {
    if state.attribution.terminal || end < state.last then state
    else
      var spent := Spent(state.attribution, state.phase, end - state.last);
      if spent.Ok? then JobState(spent.value, end, state.phase) else state
  }

  ghost function Closed(s: Summary, end: nat): Summary {
    Summary(s.series, map job | job in s.jobs :: ClosedJob(s.jobs[job], end), Some(end))
  }

  lemma JobCloses(maximum: nat, history: seq<Record>, s: Summary, end: nat, job: nat)
    requires Explained(maximum, history, s) && job in s.jobs && (s.last.Some? ==> s.last.value <= end <= U64_MAX)
    ensures s.jobs[job].last <= end
    ensures !s.jobs[job].attribution.terminal ==>
              Spent(s.jobs[job].attribution, s.jobs[job].phase, end - s.jobs[job].last).Ok?
    ensures s.jobs[job].attribution.terminal ==> JobOk(history, job, ClosedJob(s.jobs[job], end))
    ensures !s.jobs[job].attribution.terminal ==> AttributedTo(history, job, ClosedJob(s.jobs[job], end), end)
  {
    hide RegistryOk, JobOk, AttributedTo, Ordered, FirstAt, PhaseAfter, Log, Spent;
    LastSeen(history, job, s.jobs[job]);
    if !s.jobs[job].attribution.terminal {
      SpendsUntil(history, job, s.jobs[job], end);
    }
  }

  /** Every bucket and all six together fit a 64-bit word, so `accounted_ns` never overflows. */
  lemma Accounted(maximum: nat, history: seq<Record>, s: Summary, end: nat, job: nat)
    requires Explained(maximum, history, s) && job in s.jobs && (s.last.Some? ==> s.last.value <= end <= U64_MAX)
    ensures FirstAt(history, job).Some? && LastAt(history, job).Some?
    ensures var a := Closed(s, end).jobs[job].attribution;
            var until := if a.terminal then LastAt(history, job).value else end;
            && a.Total() == until - FirstAt(history, job).value <= U64_MAX
            && forall phase: Phase :: phase != Terminal ==>
                 a.In(phase) == TimeIn(history, job, phase, FirstAt(history, job).value, until)
  {
    JobCloses(maximum, history, s, end, job);
    hide RegistryOk, FirstAt, PhaseAfter, Ordered, Log, Spent, TimeIn;
    assert JobOk(history, job, s.jobs[job]);
  }

  class SummaryBuilder {
    const metrics: MetricRegistry
    var jobs: map<nat, JobState>
    var last: Option<nat>
    var finalized: bool
    ghost var history: seq<Record>

    ghost function View(): Summary
      reads this, metrics
    {
      Summary(metrics.series, jobs, last)
    }

    /** The live summary is the fold of the records consumed, closed at the end once finalized. */
    ghost predicate Valid()
      reads this, metrics
    {
      && metrics.Valid() && metrics.log == Log(history) && AllInRange(history)
      && Replay(metrics.maximum, history).Some?
      && (if !finalized then View() == Replay(metrics.maximum, history).value
          else last.Some? && View() == Closed(Replay(metrics.maximum, history).value, last.value))
    }

    constructor (registry: MetricRegistry)
      requires registry.Valid() && registry.series == map[] && registry.log == []
      ensures Valid() && metrics == registry && !finalized && history == [] && last == None
    {
      metrics, jobs, last, finalized, history := registry, map[], None, false, [];
    }

    /** `validate_terminal_metrics`. */
    method ValidateTerminal(a: JobAttribution) returns (r: Result<()>)
      requires metrics.Valid()
      ensures r == match TerminalObjection(metrics.series, metrics.maximum, a)
                   case None => Ok(())
                   case Some(e) => Throw(e)
    {
      hide Preflight, RegistryOk;
      var missing := MissingOne(metrics.series, CommunicationKey()) + MissingOne(metrics.series, SynchronizationKey())
                     + MissingOne(metrics.series, StragglerKey());
      r := metrics.Validate(Counter, CommunicationKey(), a.communication);
      if r.Throw? {
        return;
      }
      r := metrics.Validate(Counter, SynchronizationKey(), a.synchronizationWait);
      if r.Throw? {
        return;
      }
      r := metrics.Validate(Counter, StragglerKey(), a.stragglerDelay);
      if r.Throw? {
        return;
      }
      if |metrics.series| + missing > metrics.maximum {
        r := Throw(LengthError);
      }
    }

    method Validate(record: Record) returns (r: Result<()>)
      requires Valid()
      ensures r == if finalized then Throw(LogicError)
                   else match Objection(View(), metrics.maximum, record)
                     case None => Ok(())
                     case Some(e) => Throw(e)
    {
      hide Replay, Preflight, RegistryOk, Moved, TerminalObjection;
      if finalized {
        return Throw(LogicError);
      }
      if last.Some? && record.timestamp < last.value {
        return Throw(InvalidArgument);
      }
      var o := record.observation;
      if o.IsMetric() {
        r := metrics.Validate(o.Kind(), o.key, o.value);
        return;
      }
      if !o.JobObservation? {
        return Ok(());
      }
      if record.correlation.job == None {
        return Throw(InvalidArgument);
      }
      var job := record.correlation.job.value;
      var current := if job in jobs then Some(jobs[job]) else None;
      var next := Moved(current, record.timestamp, o.transition, record.correlation.collective.Some?);
      if next.Throw? {
        return Throw(next.error);
      }
      if next.value.attribution.terminal {
        r := ValidateTerminal(next.value.attribution);
        return;
      }
      return Ok(());
    }

    /** `apply_terminal_metrics` after its preflight: none of the three increments can fail. */
    method ApplyTerminal(a: JobAttribution)
      requires metrics.Valid() && TerminalObjection(metrics.series, metrics.maximum, a) == None && a.Total() <= U64_MAX
      modifies metrics`series, metrics`log
      ensures metrics.Valid() && metrics.series == TerminalApplied(old(metrics.series), a)
      ensures metrics.log == old(metrics.log) + [(CommunicationKey(), a.communication),
                                                 (SynchronizationKey(), a.synchronizationWait),
                                                 (StragglerKey(), a.stragglerDelay)]
    {
      hide *;
      ghost var log := metrics.log;
      ghost var c, y, g := (CommunicationKey(), a.communication), (SynchronizationKey(), a.synchronizationWait),
                           (StragglerKey(), a.stragglerDelay);
      TerminalFits(metrics.series, metrics.maximum, a);
      WithinTotal(a);
      Increment(CommunicationKey(), a.communication);
      Increment(SynchronizationKey(), a.synchronizationWait);
      Increment(StragglerKey(), a.stragglerDelay);
      assert log + [c] + [y] + [g] == log + [c, y, g];
      TerminalAppliedIs(old(metrics.series), a);
    }

    /** An increment that has passed its preflight does not fail. */
    method Increment(key: Key, amount: nat)
      requires metrics.Valid() && amount <= U64_MAX
      requires Preflight(metrics.series, metrics.maximum, Counter, key, amount) == None
      modifies metrics`series, metrics`log
      ensures metrics.Valid() && metrics.series == Updated(old(metrics.series), key, amount)
      ensures metrics.log == old(metrics.log) + [(key, amount)]
    {
      hide Preflight, RegistryOk, Updated;
      var r := metrics.Update(Counter, key, amount);
      assert r.Ok?;
    }

    /** `consume`: all or nothing. Once `validate` has accepted the record, nothing that follows fails. */
    method Consume(record: Record) returns (r: Result<()>)
      requires Valid() && record.InRange()
      modifies this, metrics`series, metrics`log
      ensures Valid() && finalized == old(finalized)
      ensures r == if old(finalized) then Throw(LogicError)
                   else match Objection(old(View()), metrics.maximum, record)
                     case None => Ok(())
                     case Some(e) => Throw(e)
      ensures r.Throw? ==> View() == old(View()) && history == old(history)
      ensures r.Ok? ==> history == old(history) + [record] && last == Some(record.timestamp)
      ensures r.Ok? ==> Objection(old(View()), metrics.maximum, record) == None
                        && View() == Consumed(old(View()), metrics.maximum, record)
    {
      hide Replay, Preflight, RegistryOk, Moved, TerminalObjection, Explained;
      r := Validate(record);
      if r.Throw? {
        return;
      }
      ghost var before := View();
      ReplayExplained(metrics.maximum, history);
      ReplayNext(metrics.maximum, history, record);
      RecordKeeps(metrics.maximum, history, before, record);
      LogNext(history, record);
      Appended(history, record);
      var o := record.observation;
      if o.IsMetric() {
        r := metrics.Update(o.Kind(), o.key, o.value);
        assert r.Ok?;
      } else if o.JobObservation? {
        var job := record.correlation.job.value;
        var current := if job in jobs then Some(jobs[job]) else None;
        var next := Moved(current, record.timestamp, o.transition, record.correlation.collective.Some?).value;
        EndsAre(current, record);
        JobSettled(metrics.maximum, history, before, record);
        if next.attribution.terminal {
          ApplyTerminal(next.attribution);
        }
        jobs := jobs[job := next];
      }
      last := Some(record.timestamp);
      history := history + [record];
      assert View() == Consumed(before, metrics.maximum, record);
    }

    /** `finalize`: every job that has not ended is accounted up to the end. */
    method Finalize(end: nat) returns (r: Result<()>)
      requires Valid() && end <= U64_MAX
      modifies this`jobs, this`last, this`finalized
      ensures Valid() && history == old(history)
      ensures old(finalized) ==> r == Throw(LogicError)
      ensures !old(finalized) ==> (r == Throw(InvalidArgument) <==> old(last).Some? && end < old(last).value)
      ensures r.Throw? && !old(finalized) ==> r.error == InvalidArgument
      ensures r.Throw? ==> View() == old(View()) && finalized == old(finalized)
      ensures r.Ok? ==> !old(finalized) && finalized && last == Some(end) && View() == Closed(old(View()), end)
    {
      hide Replay, RegistryOk, Explained, ClosedJob;
      if finalized {
        return Throw(LogicError);
      }
      if last.Some? && end < last.value {
        return Throw(InvalidArgument);
      }
      ReplayExplained(metrics.maximum, history);
      ghost var before := View();
      var todo := jobs.Keys;
      while todo != {}
        invariant todo <= jobs.Keys == before.jobs.Keys
        invariant forall job :: job in jobs ==>
                    jobs[job] == if job in todo then before.jobs[job] else ClosedJob(before.jobs[job], end)
        decreases |todo|
      {
        var job :| job in todo;
        JobCloses(metrics.maximum, history, before, end, job);
        var state := jobs[job];
        jobs := jobs[job := CloseOne(state, end)];
        todo := todo - {job};
      }
      last, finalized := Some(end), true;
      assert View().jobs == Closed(before, end).jobs;
      return Ok(());
    }
  }

  lemma WithinTotal(a: JobAttribution)
    requires a.Total() <= U64_MAX
    ensures a.communication <= U64_MAX && a.synchronizationWait <= U64_MAX && a.stragglerDelay <= U64_MAX
  {
  }

  lemma TerminalAppliedIs(series: SeriesTable, a: JobAttribution)
    ensures TerminalApplied(series, a) ==
            Updated(Updated(Updated(series, CommunicationKey(), a.communication),
                            SynchronizationKey(), a.synchronizationWait), StragglerKey(), a.stragglerDelay)
  {
  }

  /** The body of the loop of `finalize`; the interval never underflows or overflows. */
  function CloseOne(state: JobState, end: nat): (r: JobState)
    requires state.last <= end
    requires !state.attribution.terminal ==> Spent(state.attribution, state.phase, end - state.last).Ok?
    ensures r == ClosedJob(state, end)
  {
    if state.attribution.terminal then state
    else JobState(Spent(state.attribution, state.phase, end - state.last).value, end, state.phase)
  }

  lemma ReplayNext(maximum: nat, history: seq<Record>, r: Record)
    requires Replay(maximum, history).Some? && Objection(Replay(maximum, history).value, maximum, r) == None
    ensures Replay(maximum, history + [r]) == Some(Consumed(Replay(maximum, history).value, maximum, r))
  {
    Appended(history, r);
  }

  /** What a job record that is accepted leads to. */
  lemma JobSettled(maximum: nat, history: seq<Record>, s: Summary, r: Record)
    requires Explained(maximum, history, s) && r.InRange() && r.observation.JobObservation?
    requires Objection(s, maximum, r) == None
    ensures var job := r.correlation.job.value;
            var next := Moved(Current(s, job), r.timestamp, r.observation.transition,
                              r.correlation.collective.Some?).value;
            && next.attribution.Total() <= U64_MAX
            && (next.attribution.terminal ==> TerminalObjection(s.series, maximum, next.attribution) == None)
            && Entries(history + [r]) ==
               if next.attribution.terminal then
                 [(CommunicationKey(), next.attribution.communication),
                  (SynchronizationKey(), next.attribution.synchronizationWait),
                  (StragglerKey(), next.attribution.stragglerDelay)]
               else []
  {
    JobRecordKeeps(maximum, history, s, r);
    hide RegistryOk, JobOk, Ordered, FirstAt, PhaseAfter, Log, TerminalObjection, TerminalApplied;
    var job := r.correlation.job.value;
    EndsAre(Current(s, job), r);
    hide Moved;
    var next := Moved(Current(s, job), r.timestamp, r.observation.transition, r.correlation.collective.Some?).value;
    assert Consumed(s, maximum, r).jobs[job] == next;
    TotalFits(history + [r], job, next);
    if next.attribution.terminal {
      TerminalEntries(history, job, r, next);
    } else {
      Appended(history, r);
    }
  }
}
