/**
 The metric registry of `simulator/src/telemetry/metrics.cpp`: labelled series of counters, gauges
 and histograms, and the preflight that tells whether an update would be accepted.

 A metric is its number in `MetricId`. Labels are kept sorted and distinct by the source, so a label
 set is a map here.
 */
module Metrics {
  import opened Prelude

  datatype MetricKind = Counter | Gauge | Histogram | DerivedSummary

  datatype Label = Job | Collective | Link | Direction | Policy | Outcome | Reason | Failure | Resource

  type Labels = map<Label, nat>

  datatype Definition = Definition(
    kind: MetricKind, required: set<Label>, permitted: set<Label>, boundaries: seq<nat>)

  datatype Key = Key(metric: nat, labels: Labels)

  datatype Series = Series(kind: MetricKind, scalar: nat, buckets: seq<nat>, count: nat, sum: nat)

  type SeriesTable = map<Key, Series>

  function Latencies(): seq<nat> {
    [1_000, 10_000, 100_000, 1_000_000, 10_000_000, 100_000_000, 1_000_000_000, 10_000_000_000, 60_000_000_000]
  }

  function Counts(): seq<nat> {
    [0, 1, 2, 4, 8, 16, 32, 64, 128, 256, 512, 1_024, 2_048, 8_192]
  }

  /** The catalog: kind, labels and histogram boundaries of each known metric. */
  function Define(metric: nat): Option<Definition> {
    var link := {Link, Direction};
    if metric in {1, 2, 4, 12, 13, 14, 15, 16, 17, 31, 32, 33, 34} then Some(Definition(Counter, {}, {}, []))
    else if metric == 3 then Some(Definition(Gauge, {}, {}, []))
    else if metric in {5, 18, 70} then Some(Definition(Counter, {Outcome}, {Outcome}, []))
    else if metric in {10, 11, 30} then Some(Definition(Histogram, {}, {}, Latencies()))
    else if 50 <= metric <= 59 || metric == 63 then Some(Definition(Counter, link, link, []))
    else if 60 <= metric <= 62 then Some(Definition(Gauge, link, link, []))
    else if metric == 64 then Some(Definition(DerivedSummary, link, link, []))
    else if metric in {80, 81} then Some(Definition(Counter, {Policy, Outcome}, {Policy, Outcome}, []))
    else if 82 <= metric <= 84 then Some(Definition(Histogram, {}, {}, Counts()))
    else if metric == 100 then Some(Definition(Counter, {Failure, Resource}, {Failure, Resource}, []))
    else if metric in {101, 102} then Some(Definition(Counter, {Failure}, {Failure, Resource}, []))
    else if metric in {103, 104} then Some(Definition(Histogram, {}, {Resource}, Latencies()))
    else None
  }

  // What a series means

  ghost function Sum(values: seq<nat>): nat {
    if values == [] then 0 else Sum(values[..|values| - 1]) + values[|values| - 1]
  }

  /** A value falls in the bucket whose upper boundary is the first not below it. */
  ghost predicate InBucket(boundaries: seq<nat>, b: nat, value: nat) {
    && b <= |boundaries|
    && (b > 0 ==> boundaries[b - 1] < value)
    && (b < |boundaries| ==> value <= boundaries[b])
  }

  ghost function CountIn(boundaries: seq<nat>, b: nat, values: seq<nat>): nat {
    if values == [] then 0
    else CountIn(boundaries, b, values[..|values| - 1])
         + (if InBucket(boundaries, b, values[|values| - 1]) then 1 else 0)
  }

  /** The series is what its kind makes of the values it was given, in order. */
  ghost predicate Means(s: Series, d: Definition, values: seq<nat>) {
    && values != [] && s.kind == d.kind && d.kind != DerivedSummary
    && (s.kind == Histogram ==>
          && |s.buckets| == |d.boundaries| + 1 && s.scalar == 0
          && (forall b :: 0 <= b < |s.buckets| ==> s.buckets[b] == CountIn(d.boundaries, b, values))
          && s.count == |values| <= U64_MAX && s.sum == Sum(values) <= U64_MAX)
    && (s.kind != Histogram ==> s.buckets == [] && s.count == 0 && s.sum == 0)
    && (s.kind == Counter ==> s.scalar == Sum(values) <= U64_MAX)
    && (s.kind == Gauge ==> s.scalar == values[|values| - 1])
  }

  /** The values an update log holds for one series. */
  ghost function Values(log: seq<(Key, nat)>, key: Key): seq<nat> {
    if log == [] then []
    else
      var last := log[|log| - 1];
      Values(log[..|log| - 1], key) + (if last.0 == key then [last.1] else [])
  }

  /** Every series means exactly what the log holds for it, and no other key occurs in the log. */
  ghost predicate RegistryOk(series: SeriesTable, maximum: nat, log: seq<(Key, nat)>) {
    && |series| <= maximum
    && (forall key :: key in series ==>
          Define(key.metric).Some? && Means(series[key], Define(key.metric).value, Values(log, key)))
    && (forall key :: key !in series ==> Values(log, key) == [])
  }

  // Updates

  predicate Increasing(boundaries: seq<nat>) {
    forall i, j :: 0 <= i < j < |boundaries| ==> boundaries[i] < boundaries[j]
  }

  lemma CatalogOrdered(metric: nat)
    ensures Define(metric).Some? ==> Increasing(Define(metric).value.boundaries)
  {
    assert Increasing(Latencies());
    assert Increasing(Counts());
    assert Increasing([]);
  }

  /** `std::lower_bound`. */
  function LowerBound(boundaries: seq<nat>, value: nat): (b: nat)
    ensures InBucket(boundaries, b, value)
  {
    BoundFrom(boundaries, value, 0)
  }

  function BoundFrom(boundaries: seq<nat>, value: nat, from: nat): (b: nat)
    requires from <= |boundaries| && (from > 0 ==> boundaries[from - 1] < value)
    ensures InBucket(boundaries, b, value)
    decreases |boundaries| - from
  {
    if from == |boundaries| || value <= boundaries[from] then from
    else BoundFrom(boundaries, value, from + 1)
  }

  lemma OneBucket(boundaries: seq<nat>, value: nat, b: nat)
    requires Increasing(boundaries) && InBucket(boundaries, b, value)
    ensures b == LowerBound(boundaries, value)
  {
  }

  function Blank(d: Definition): Series {
    Series(d.kind, 0, if d.kind == Histogram then seq(|d.boundaries| + 1, _ => 0) else [], 0, 0)
  }

  /** What `increment`, `set_gauge` or `observe` makes of a series. */
  function Bumped(s: Series, d: Definition, value: nat): Series {
    match d.kind
    case Counter => s.(scalar := s.scalar + value)
    case Histogram =>
      var b := LowerBound(d.boundaries, value);
      if b < |s.buckets| then
        s.(buckets := s.buckets[b := s.buckets[b] + 1], count := s.count + 1, sum := s.sum + value)
      else s
    case _ => s.(scalar := value)
  }

  predicate Overflows(s: Series, d: Definition, value: nat) {
    match d.kind
    case Counter => s.scalar + value > U64_MAX
    case Histogram =>
      var b := LowerBound(d.boundaries, value);
      || (b < |s.buckets| && s.buckets[b] + 1 > U64_MAX)
      || s.count + 1 > U64_MAX || s.sum + value > U64_MAX
    case _ => false
  }

  /** `validate_series`. */
  function Refused(series: SeriesTable, maximum: nat, kind: MetricKind, key: Key): Option<Error> {
    var d := Define(key.metric);
    if d == None || !(d.value.required <= key.labels.Keys <= d.value.permitted) || d.value.kind != kind then
      Some(InvalidArgument)
    else if key !in series && |series| >= maximum then Some(LengthError)
    else None
  }

  /** Why `validate_increment`, `validate_set_gauge` or `validate_observe` would throw, if it would. */
  function Preflight(series: SeriesTable, maximum: nat, kind: MetricKind, key: Key, value: nat): Option<Error> {
    var refused := Refused(series, maximum, kind, key);
    if refused.Some? then refused
    else if key in series && Overflows(series[key], Define(key.metric).value, value) then Some(OverflowError)
    else None
  }

  function Updated(series: SeriesTable, key: Key, value: nat): SeriesTable {
    if Define(key.metric) == None then series
    else
      var d := Define(key.metric).value;
      series[key := Bumped(if key in series then series[key] else Blank(d), d, value)]
  }

  lemma ValuesLast(log: seq<(Key, nat)>, at: Key, value: nat, key: Key)
    ensures Values(log + [(at, value)], key) == if at == key then Values(log, key) + [value] else Values(log, key)
  {
    assert (log + [(at, value)])[..|log|] == log;
  }

  /** A histogram series has a bucket for every value. */
  lemma HasBucket(series: SeriesTable, maximum: nat, log: seq<(Key, nat)>, key: Key, value: nat)
    requires RegistryOk(series, maximum, log) && key in series && series[key].kind == Histogram
    ensures Define(key.metric).Some?
    ensures LowerBound(Define(key.metric).value.boundaries, value) < |series[key].buckets|
  {
  }

  lemma BlankBumped(d: Definition, value: nat)
    requires d.kind != DerivedSummary && value <= U64_MAX && Increasing(d.boundaries)
    ensures Means(Bumped(Blank(d), d, value), d, [value])
  {
    assert [value][..0] == [];
    BucketsBump(Blank(d), d, [], value);
    assert [] + [value] == [value];
  }

  /** Exactly the bucket the value falls in grows. */
  lemma BucketsBump(s: Series, d: Definition, values: seq<nat>, value: nat)
    requires Increasing(d.boundaries) && (d.kind == Histogram ==> |s.buckets| == |d.boundaries| + 1)
    requires d.kind == Histogram ==>
               forall b :: 0 <= b < |s.buckets| ==> s.buckets[b] == CountIn(d.boundaries, b, values)
    ensures Sum(values + [value]) == Sum(values) + value
    ensures d.kind == Histogram ==>
              forall b :: 0 <= b < |s.buckets| ==>
                Bumped(s, d, value).buckets[b] == CountIn(d.boundaries, b, values + [value])
  {
    var all := values + [value];
    assert all[..|values|] == values;
    if d.kind == Histogram {
      forall b | 0 <= b < |s.buckets|
        ensures Bumped(s, d, value).buckets[b] == CountIn(d.boundaries, b, all)
      {
        if InBucket(d.boundaries, b, value) {
          OneBucket(d.boundaries, value, b);
        }
      }
    }
  }

  lemma BumpedMeans(s: Series, d: Definition, values: seq<nat>, value: nat)
    requires Means(s, d, values) && Increasing(d.boundaries) && !Overflows(s, d, value)
    ensures Means(Bumped(s, d, value), d, values + [value])
  {
    BucketsBump(s, d, values, value);
  }

  /** An update that passes its preflight keeps the registry exact; the series limit is respected. */
  lemma UpdateKeeps(
    series: SeriesTable, maximum: nat, log: seq<(Key, nat)>, kind: MetricKind, key: Key, value: nat)
    requires RegistryOk(series, maximum, log) && kind != DerivedSummary && value <= U64_MAX
    ensures Preflight(series, maximum, kind, key, value) == None ==>
              RegistryOk(Updated(series, key, value), maximum, log + [(key, value)])
  {
    hide Means, Define, Bumped, Values, Blank, Overflows, Preflight;
    if Preflight(series, maximum, kind, key, value) == None {
      Passed(series, maximum, kind, key, value);
      SeriesKept(series, log, key, value);
      OthersKept(log, key, value);
      Grown(series, key, Updated(series, key, value)[key]);
      hide *;
      RegistryPieces(series, maximum, log, key, Updated(series, key, value)[key], value);
    }
  }

  lemma Grown<K, V>(m: map<K, V>, k: K, v: V)
    ensures |m[k := v]| == if k in m then |m| else |m| + 1
  {
    assert m[k := v].Keys == m.Keys + {k};
  }

  lemma RegistryPieces(
    series: SeriesTable, maximum: nat, log: seq<(Key, nat)>, key: Key, s: Series, value: nat)
    requires RegistryOk(series, maximum, log) && |series[key := s]| <= maximum && Define(key.metric).Some?
    requires Means(s, Define(key.metric).value, Values(log + [(key, value)], key))
    requires forall other :: other != key ==> Values(log + [(key, value)], other) == Values(log, other)
    ensures RegistryOk(series[key := s], maximum, log + [(key, value)])
  {
    hide Means, Define, Values;
  }

  lemma Passed(series: SeriesTable, maximum: nat, kind: MetricKind, key: Key, value: nat)
    requires Preflight(series, maximum, kind, key, value) == None
    ensures Define(key.metric).Some? && Define(key.metric).value.kind == kind
    ensures key in series ==> !Overflows(series[key], Define(key.metric).value, value)
    ensures key !in series ==> |series| < maximum
  {
    hide Define, Overflows;
  }

  lemma SeriesKept(series: SeriesTable, log: seq<(Key, nat)>, key: Key, value: nat)
    requires Define(key.metric).Some? && value <= U64_MAX
    requires key in series ==> Means(series[key], Define(key.metric).value, Values(log, key))
    requires key in series ==> !Overflows(series[key], Define(key.metric).value, value)
    requires key !in series ==> Values(log, key) == [] && Define(key.metric).value.kind != DerivedSummary
    ensures Means(Updated(series, key, value)[key], Define(key.metric).value, Values(log + [(key, value)], key))
  {
    CatalogOrdered(key.metric);
    ValuesLast(log, key, value, key);
    hide Define, Means, Values, Bumped;
    var d := Define(key.metric).value;
    if key in series {
      BumpedMeans(series[key], d, Values(log, key), value);
    } else {
      BlankBumped(d, value);
      assert [] + [value] == [value];
    }
  }

  lemma OthersKept(log: seq<(Key, nat)>, key: Key, value: nat)
    ensures forall other :: other != key ==> Values(log + [(key, value)], other) == Values(log, other)
  {
    hide Values;
    forall other ensures other != key ==> Values(log + [(key, value)], other) == Values(log, other) {
      ValuesLast(log, key, value, other);
    }
  }

  /** Every observation of a histogram is in exactly one bucket. */
  lemma HistogramsBalance(series: SeriesTable, maximum: nat, log: seq<(Key, nat)>, key: Key)
    requires RegistryOk(series, maximum, log) && key in series && series[key].kind == Histogram
    ensures Sum(series[key].buckets) == series[key].count == |Values(log, key)|
  {
    CatalogOrdered(key.metric);
    hide Define, Values, CountIn, Sum;
    var d := Define(key.metric).value;
    assert Means(series[key], d, Values(log, key));
    BucketTotal(d.boundaries, Values(log, key), series[key].buckets);
  }

  lemma {:induction false} BucketTotal(boundaries: seq<nat>, values: seq<nat>, buckets: seq<nat>)
    requires Increasing(boundaries) && |buckets| == |boundaries| + 1
    requires forall b :: 0 <= b < |buckets| ==> buckets[b] == CountIn(boundaries, b, values)
    ensures Sum(buckets) == |values|
  {
    if values == [] {
      AllZero(buckets);
    } else {
      var last, prefix := values[|values| - 1], values[..|values| - 1];
      var l := LowerBound(boundaries, last);
      forall b | 0 <= b < |buckets| ensures InBucket(boundaries, b, last) <==> b == l {
        if InBucket(boundaries, b, last) {
          OneBucket(boundaries, last, b);
        }
      }
      var before := buckets[l := CountIn(boundaries, l, prefix)];
      BucketTotal(boundaries, prefix, before);
      SumUpdate(before, l, buckets[l]);
      assert before[l := buckets[l]] == buckets;
    }
  }

  lemma {:induction false} AllZero(values: seq<nat>)
    requires forall i :: 0 <= i < |values| ==> values[i] == 0
    ensures Sum(values) == 0
  {
    if values != [] {
      AllZero(values[..|values| - 1]);
    }
  }

  lemma {:induction false} SumUpdate(values: seq<nat>, i: nat, value: nat)
    requires i < |values|
    ensures Sum(values[i := value]) == Sum(values) - values[i] + value
  {
    var k := |values| - 1;
    if i == k {
      assert values[i := value][..k] == values[..k];
    } else {
      assert values[i := value][..k] == values[..k][i := value];
      SumUpdate(values[..k], i, value);
    }
  }

  class MetricRegistry {
    const maximum: nat
    var series: SeriesTable
    ghost var log: seq<(Key, nat)>

    ghost predicate Valid()
      reads this
    {
      RegistryOk(series, maximum, log)
    }

    constructor (maximum: nat)
      ensures Valid() && this.maximum == maximum && series == map[] && log == []
    {
      this.maximum, series, log := maximum, map[], [];
    }

    /** The limits must be positive and leave room for every histogram of the catalog. */
    static predicate LimitsOk(maximumSeries: nat, maximumBoundaries: nat) {
      maximumSeries > 0 && |Latencies()| <= maximumBoundaries && |Counts()| <= maximumBoundaries
    }

    static method Create(maximumSeries: nat, maximumBoundaries: nat) returns (r: Result<MetricRegistry>)
      ensures r.Ok? <==> LimitsOk(maximumSeries, maximumBoundaries)
      ensures r.Throw? ==> r.error == InvalidArgument
      ensures r.Ok? ==> fresh(r.value) && r.value.Valid() && r.value.maximum == maximumSeries
                        && r.value.series == map[] && r.value.log == []
    {
      if !LimitsOk(maximumSeries, maximumBoundaries) {
        return Throw(InvalidArgument);
      }
      var registry := new MetricRegistry(maximumSeries);
      return Ok(registry);
    }

    /** The validators: an update throws exactly what its preflight throws. */
    method Validate(kind: MetricKind, key: Key, value: nat) returns (r: Result<()>)
      requires Valid()
      ensures r == match Preflight(series, maximum, kind, key, value) case None => Ok(()) case Some(e) => Throw(e)
    {
      hide RegistryOk, Define;
      var refused := Refused(series, maximum, kind, key);
      if refused.Some? {
        return Throw(refused.value);
      }
      if key in series && Overflows(series[key], Define(key.metric).value, value) {
        return Throw(OverflowError);
      }
      return Ok(());
    }

    /**
     `increment`, `set_gauge` and `observe`, by kind: all or nothing. A new series starts blank, where
     no first value can overflow.
     */
    method Update(kind: MetricKind, key: Key, value: nat) returns (r: Result<()>)
      requires Valid() && kind != DerivedSummary && value <= U64_MAX
      modifies this`series, this`log
      ensures Valid()
      ensures r == match Preflight(old(series), maximum, kind, key, value)
                   case None => Ok(())
                   case Some(e) => Throw(e)
      ensures r.Throw? ==> series == old(series) && log == old(log)
      ensures r.Ok? ==> series == Updated(old(series), key, value)
                        && log == old(log) + [(key, value)]
    {
      UpdateKeeps(series, maximum, log, kind, key, value);
      hide RegistryOk, Define;
      var refused := Refused(series, maximum, kind, key);
      if refused.Some? {
        return Throw(refused.value);
      }
      var d := Define(key.metric).value;
      var current := if key in series then series[key] else Blank(d);
      BlankFits(d, value);
      if key in series && series[key].kind == Histogram {
        HasBucket(series, maximum, log, key, value);
        assert LowerBound(d.boundaries, value) < |series[key].buckets|;
      }
      if Overflows(current, d, value) {
        return Throw(OverflowError);
      }
      series := series[key := Bumped(current, d, value)];
      log := log + [(key, value)];
      return Ok(());
    }
  }

  lemma BlankFits(d: Definition, value: nat)
    requires value <= U64_MAX
    ensures d.kind == Histogram ==> |Blank(d).buckets| == |d.boundaries| + 1
    ensures !Overflows(Blank(d), d, value)
  {
  }
}
