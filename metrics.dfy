/** The in-process metrics collector: counters, gauges and histograms keyed
    by a metric name and its labels, with a bounded history per key, and
    timing statistics per operation. Durations are reals, so floating-point
    rounding is not modelled; the lock around each method is left out
    because the model is sequential. */
module Metrics {
  import opened Wrappers
  import opened Text
  import opened Json
  import opened Ordering

  // ---------------------------------------------------------------------
  // Label keys

  /** A labels dict: its items in insertion order (keys are distinct). An
      absent labels argument is the empty dict. */
  type Labels = seq<(string, string)>

  /** The `k=v` pieces of the key, one per label, in the order given. */
  function RenderPairs(labels: Labels): (r: seq<string>)
    ensures |r| == |labels|
    ensures forall i :: 0 <= i < |labels| ==> r[i] == labels[i].0 + "=" + labels[i].1
  {
    seq(|labels|, i requires 0 <= i < |labels| => labels[i].0 + "=" + labels[i].1)
  }

  /** What `_make_key` appends to the metric name: nothing for no labels,
      else "|" and the labels sorted by key, joined with ",". */
  function LabelSuffix(labels: Labels): string
    requires DistinctKeys(labels)
  {
    if labels == [] then "" else "|" + Join(",", RenderPairs(SortByKey(labels)))
  }

  /** _make_key(name, labels) */
  function MakeKey(name: string, labels: Labels): string
    requires DistinctKeys(labels)
  {
    name + LabelSuffix(labels)
  }

  /** `labels[k] = v` on a dict: an existing key keeps its place and takes
      the new value; a new key goes last. */
  function Assign(labels: Labels, k: string, v: string): (r: Labels)
    requires DistinctKeys(labels)
    ensures DistinctKeys(r)
    ensures KeyAbsent(k, labels) ==> r == labels + [(k, v)]
    ensures !KeyAbsent(k, labels) ==> |r| == |labels|
    ensures !KeyAbsent(k, labels) ==>
      forall i :: 0 <= i < |labels| ==> r[i] == if labels[i].0 == k then (k, v) else labels[i]
  {
    if KeyAbsent(k, labels) then labels + [(k, v)]
    else seq(|labels|, i requires 0 <= i < |labels| => if labels[i].0 == k then (k, v) else labels[i])
  }

  /** The loop of `_parse_labels` over the comma-separated pairs: each pair
      splits at its first "="; a pair without one makes the unpacking raise
      ValueError. */
  function ParsePairs(pairs: seq<string>): (r: Result<Labels, string>)
    ensures r.Ok? <==> forall i :: 0 <= i < |pairs| ==> '=' in pairs[i]
    ensures r.Ok? ==> DistinctKeys(r.value)
    ensures r.Err? ==> r.error == "ValueError"
  {
    if pairs == [] then Ok([])
    else
      var init := pairs[..|pairs| - 1];
      assert forall i :: 0 <= i < |init| ==> init[i] == pairs[i];
      var labels :- ParsePairs(init);
      match SplitFirst(pairs[|pairs| - 1], '=')
      case None => Err("ValueError")
      case Some((k, v)) => Ok(Assign(labels, k, v))
  }

  /** _parse_labels(key): None for a key without "|"; otherwise the labels
      after the first "|". */
  function ParseLabels(key: string): (r: Result<Option<Labels>, string>)
    ensures r == Ok(None) <==> '|' !in key
    ensures r.Ok? && r.value.Some? ==> DistinctKeys(r.value.value)
    ensures r.Err? ==> r.error == "ValueError"
  {
    match SplitFirst(key, '|')
    case None => Ok(None)
    case Some((_, labelText)) =>
      var labels :- ParsePairs(Split(labelText, ','));
      Ok(Some(labels))
  }

  /** The names and labels whose keys parse back: no "|" in the name, no ","
      or "=" in a label key and no "," in a label value. */
  predicate Encodable(name: string, labels: Labels) {
    '|' !in name &&
    forall i :: 0 <= i < |labels| ==> ',' !in labels[i].0 && '=' !in labels[i].0 && ',' !in labels[i].1
  }

  /** The key does not depend on the order in which the labels were
      inserted. */
  lemma MakeKeyOrderFree(name: string, a: Labels, b: Labels)
    requires DistinctKeys(a) && DistinctKeys(b)
    requires multiset(a) == multiset(b)
    ensures MakeKey(name, a) == MakeKey(name, b)
  {
    assert |a| == |multiset(a)| == |multiset(b)| == |b|;
    SortByKeyOrderFree(a, b);
  }

  lemma {:induction false} ParseRenderedPairs(s: Labels)
    requires DistinctKeys(s)
    requires forall i :: 0 <= i < |s| ==> '=' !in s[i].0
    ensures ParsePairs(RenderPairs(s)) == Ok(s)
  {
    if s != [] {
      var init := s[..|s| - 1];
      var (k, v) := s[|s| - 1];
      var pairs := RenderPairs(s);
      assert pairs[..|pairs| - 1] == RenderPairs(init);
      ParseRenderedPairs(init);
      assert pairs[|pairs| - 1] == k + ['='] + v;
      SplitFirstAt(k, v, '=');
      assert KeyAbsent(k, init);
      assert init + [(k, v)] == s;
    }
  }

  /** Sorted labels are still encodable. */
  lemma SortedEncodable(name: string, labels: Labels)
    requires DistinctKeys(labels) && Encodable(name, labels)
    ensures Encodable(name, SortByKey(labels))
  {
    var s := SortByKey(labels);
    forall i | 0 <= i < |s|
      ensures ',' !in s[i].0 && '=' !in s[i].0 && ',' !in s[i].1
    {
      assert s[i] in multiset(labels);
      var j :| 0 <= j < |labels| && labels[j] == s[i];
    }
  }

  lemma RenderedPairsHaveNoComma(s: Labels)
    requires forall i :: 0 <= i < |s| ==> ',' !in s[i].0 && ',' !in s[i].1
    ensures forall i :: 0 <= i < |s| ==> ',' !in RenderPairs(s)[i]
  {
    forall i | 0 <= i < |s|
      ensures ',' !in RenderPairs(s)[i]
    {
      assert RenderPairs(s)[i] == s[i].0 + "=" + s[i].1;
    }
  }

  /** The labels part of a key with labels splits back into the rendered
      pairs and parses into the sorted labels. */
  lemma ParseLabelPart(name: string, labels: Labels)
    requires DistinctKeys(labels) && Encodable(name, labels) && labels != []
    ensures var rest := Join(",", RenderPairs(SortByKey(labels)));
      SplitFirst(MakeKey(name, labels), '|') == Some((name, rest)) &&
      ParsePairs(Split(rest, ',')) == Ok(SortByKey(labels))
  {
    var s := SortByKey(labels);
    SortedEncodable(name, labels);
    var pairs := RenderPairs(s);
    var rest := Join(",", pairs);
    assert MakeKey(name, labels) == name + ['|'] + rest;
    SplitFirstAt(name, rest, '|');
    RenderedPairsHaveNoComma(s);
    SplitJoin(pairs, ',');
    SortedIsDistinct(s);
    ParseRenderedPairs(s);
  }

  /** Parsing a key gives back its labels, sorted by key, when the name and
      labels are encodable; a key without labels parses to None. */
  lemma ParseMakeKey(name: string, labels: Labels)
    requires DistinctKeys(labels) && Encodable(name, labels)
    ensures ParseLabels(MakeKey(name, labels)) ==
      if labels == [] then Ok(None) else Ok(Some(SortByKey(labels)))
  {
    if labels == [] {
      assert MakeKey(name, labels) == name;
    } else {
      ParseLabelPart(name, labels);
    }
  }

  /** The key get_all_metrics rebuilds from a stored key: the text before
      the first "|" and the parsed labels, through _make_key again. */
  function RebuiltKey(key: string): (r: Result<string, string>)
    ensures r.Err? <==> ParseLabels(key).Err?
  {
    var labels :- ParseLabels(key);
    var name := Split(key, '|')[0];
    match labels
    case None => Ok(MakeKey(name, []))
    case Some(l) => Ok(MakeKey(name, l))
  }

  /** A key made from an encodable name and labels rebuilds to itself. */
  lemma RebuiltKeyOfMakeKey(name: string, labels: Labels)
    requires DistinctKeys(labels) && Encodable(name, labels)
    ensures RebuiltKey(MakeKey(name, labels)) == Ok(MakeKey(name, labels))
  {
    ParseMakeKey(name, labels);
    if labels == [] {
      RebuiltBareName(name);
    } else {
      RebuiltNameOfLabelled(name, labels);
      SortByKeySorted(SortByKey(labels));
    }
  }

  /** A key without labels is its name, which holds no "|". */
  lemma RebuiltBareName(name: string)
    requires '|' !in name
    ensures Split(MakeKey(name, []), '|')[0] == name
  {
    assert MakeKey(name, []) == name;
    assert SplitFirst(name, '|') == None;
    assert Split(name, '|') == [name];
  }

  /** The text before the first "|" of a key with labels is its name. */
  lemma RebuiltNameOfLabelled(name: string, labels: Labels)
    requires DistinctKeys(labels) && '|' !in name && labels != []
    ensures Split(MakeKey(name, labels), '|')[0] == name
  {
    var rest := Join(",", RenderPairs(SortByKey(labels)));
    assert MakeKey(name, labels) == name + ['|'] + rest;
    SplitFirstAt(name, rest, '|');
  }

  // ---------------------------------------------------------------------
  // Bounded history

  /** A recorded value and the labels it was recorded with (the timestamp
      is not modelled). */
  datatype MetricValue = MetricValue(value: real, labels: Labels)

  /** `deque(maxlen=n).append(x)`: x goes last and, once the deque is
      full, the oldest value drops out. */
  function Push<T>(h: seq<T>, x: T, maxlen: nat): (r: seq<T>)
    ensures |r| == if |h| + 1 <= maxlen then |h| + 1 else maxlen
    ensures forall i :: 0 <= i < |r| ==> r[i] == (h + [x])[|h| + 1 - |r| + i]
  {
    if |h| + 1 <= maxlen then h + [x] else (h + [x])[|h| + 1 - maxlen..]
  }

  /** The last n values of everything ever recorded. */
  function Recent<T>(s: seq<T>, n: nat): (r: seq<T>)
    ensures |r| <= n && |r| <= |s|
  {
    if |s| <= n then s else s[|s| - n..]
  }

  /** A bounded history always holds the most recent max_history values,
      oldest first: appending to it is taking the recent values of the
      longer record. */
  lemma PushRecent<T>(s: seq<T>, x: T, n: nat)
    ensures Push(Recent(s, n), x, n) == Recent(s + [x], n)
  {
    var h := Recent(s, n);
    var r := Push(h, x, n);
    var t := Recent(s + [x], n);
    assert |r| == |t|;
    forall i | 0 <= i < |r|
      ensures r[i] == t[i]
    {
      if |s| > n {
        assert h[|h| + 1 - |r| + i - 1] == s[|s| - n + |h| + 1 - |r| + i - 1];
      }
    }
  }

  function ValuesOf(h: seq<MetricValue>): (r: seq<real>)
    ensures |r| == |h| && forall i :: 0 <= i < |h| ==> r[i] == h[i].value
  {
    seq(|h|, i requires 0 <= i < |h| => h[i].value)
  }

  // ---------------------------------------------------------------------
  // Histogram statistics

  function Sum(s: seq<real>): real {
    if s == [] then 0.0 else Sum(s[..|s| - 1]) + s[|s| - 1]
  }

  /** statistics.mean */
  function Mean(s: seq<real>): real
    requires s != []
  {
    Sum(s) / |s| as real
  }

  /** statistics.median of sorted values: the middle one, or the mean of the
      two middle ones. */
  function Median(s: seq<real>): (r: real)
    requires s != [] && Sorted(s)
    ensures s[0] <= r <= s[|s| - 1]
  {
    var n := |s|;
    if n % 2 == 1 then s[n / 2] else (s[n / 2 - 1] + s[n / 2]) / 2.0
  }

  lemma MulNonNegative(x: real, y: real)
    requires x >= 0.0 && y >= 0.0
    ensures x * y >= 0.0
  {
  }

  lemma Between(a: real, b: real, t: real)
    requires a <= b && 0.0 <= t <= 1.0
    ensures a <= a * (1.0 - t) + b * t <= b
  {
    var d := b - a;
    assert a * (1.0 - t) + b * t == a + t * d;
    MulNonNegative(t, d);
    MulNonNegative(1.0 - t, d);
    assert d - t * d == (1.0 - t) * d;
  }

  lemma ScaleDown(x: real, p: real)
    requires x >= 0.0 && 0.0 <= p <= 1.0
    ensures 0.0 <= x * p <= x
    ensures p < 1.0 && x > 0.0 ==> x * p < x
  {
    MulNonNegative(x, p);
    MulNonNegative(x, 1.0 - p);
    assert x - x * p == x * (1.0 - p);
    if p < 1.0 && x > 0.0 {
      assert x * (1.0 - p) > 0.0;
    }
  }

  /** k = (len(values) - 1) * percentile, the fractional index into the
      sorted values. */
  function Rank(n: nat, p: real): (k: real)
    requires n >= 1 && 0.0 <= p <= 1.0
    ensures 0.0 <= k <= (n - 1) as real
    ensures p < 1.0 && n >= 2 ==> k < (n - 1) as real
  {
    var x := (n - 1) as real;
    assert n >= 2 ==> x >= 1.0;
    ScaleDown(x, p);
    x * p
  }

  /** _percentile as written: the upper neighbour is always int(k) + 1, so
      its `f == c` branch can never run, and a single value makes the index
      run past the end. Python's IndexError is Err. */
  function PercentileAsWritten(values: seq<real>, p: real): (r: Result<real, string>)
    requires 0.0 <= p <= 1.0
    ensures r.Err? ==> r.error == "IndexError"
    ensures r.Err? <==> |values| <= 1 || p == 1.0
  {
    if |values| == 0 then Err("IndexError")
    else
      var s := SortReals(values);
      var k := Rank(|s|, p);
      var f := Trunc(k);
      var c := f + 1;
      if c >= |s| then Err("IndexError")
      else Ok(Weighted(s, f, k))
  }

  /** sorted_values[f] * (c - k) + sorted_values[c] * (k - f) with c = f + 1. */
  function Weighted(s: seq<real>, f: nat, k: real): real
    requires f + 1 < |s|
  {
    s[f] * ((f + 1) as real - k) + s[f + 1] * (k - f as real)
  }

  /** One recorded value is enough to make the as-written percentile raise. */
  lemma PercentileOfOneValueRaises(v: real, p: real)
    requires 0.0 <= p <= 1.0
    ensures PercentileAsWritten([v], p) == Err("IndexError")
  {
  }

  /** The upper neighbour of a rank k at most n - 1: ceil(k). */
  function Upper(k: real, n: nat): (c: nat)
    requires 0.0 <= k <= (n - 1) as real
    ensures k.Floor <= c < n
    ensures c == k.Floor <==> k.Floor as real == k
    ensures c != k.Floor ==> c == k.Floor + 1
  {
    if k.Floor as real == k then k.Floor else k.Floor + 1
  }

  /** The linear interpolation the code means, on sorted values: between
      the values at floor(k) and ceil(k), the value itself when k is whole. */
  function Interpolate(s: seq<real>, k: real): (r: real)
    requires |s| >= 1 && Sorted(s) && 0.0 <= k <= (|s| - 1) as real
    ensures s[k.Floor] <= r <= s[Upper(k, |s|)]
  {
    var f := k.Floor;
    var c := Upper(k, |s|);
    if f == c then s[f]
    else
      var t := k - f as real;
      assert c as real - k == 1.0 - t;
      Between(s[f], s[c], t);
      s[f] * (c as real - k) + s[c] * (k - f as real)
  }

  /** _percentile with ceil(k) as the upper neighbour. */
  function Percentile(values: seq<real>, p: real): (r: real)
    requires values != [] && 0.0 <= p <= 1.0
    ensures var s := SortReals(values); var k := Rank(|s|, p);
      s[k.Floor] <= r <= s[Upper(k, |s|)]
  {
    Interpolate(SortReals(values), Rank(|values|, p))
  }

  /** Where int(k) + 1 is still an index, reading it gives what
      interpolating between floor and ceil gives. */
  lemma InterpolateAsWritten(s: seq<real>, k: real)
    requires |s| >= 1 && Sorted(s) && 0.0 <= k < (|s| - 1) as real
    ensures Weighted(s, k.Floor, k) == Interpolate(s, k)
  {
    var f := k.Floor;
    if f as real == k {
      assert (f + 1) as real - k == 1.0 && k - f as real == 0.0;
      assert s[f] * 1.0 + s[f + 1] * 0.0 == s[f];
    }
  }

  /** With two or more values and p below 1 both versions agree, so the fix
      changes nothing the code could already compute. */
  lemma PercentileAgrees(values: seq<real>, p: real)
    requires |values| >= 2 && 0.0 <= p < 1.0
    ensures PercentileAsWritten(values, p) == Ok(Percentile(values, p))
  {
    var s := SortReals(values);
    var k := Rank(|s|, p);
    var f := Trunc(k);
    assert f == k.Floor;
    assert f as real <= k < (|s| - 1) as real;
    assert f + 1 < |s|;
    InterpolateAsWritten(s, k);
  }

  /** The statistics get_histogram_stats reports. */
  datatype Summary = Summary(
    count: nat, min: real, max: real, mean: real, median: real, p90: real, p95: real, p99: real)

  /** The ends of the sorted copy are values, and every value lies between them. */
  lemma SortedEnds(values: seq<real>)
    requires values != []
    ensures var s := SortReals(values);
      s[0] in values && s[|s| - 1] in values &&
      forall i :: 0 <= i < |values| ==> s[0] <= values[i] <= s[|s| - 1]
  {
    var s := SortReals(values);
    assert s[0] in multiset(values) && s[|s| - 1] in multiset(values);
    forall i | 0 <= i < |values|
      ensures s[0] <= values[i] <= s[|s| - 1]
    {
      assert values[i] in multiset(s);
      var j :| 0 <= j < |s| && s[j] == values[i];
    }
  }

  /** The statistics get_histogram_stats means to report over the recorded
      values: None for the empty dict; percentiles by the corrected
      interpolation. */
  function IntendedHistogramStats(values: seq<real>): (r: Option<Summary>)
    ensures r.None? <==> values == []
    ensures r.Some? ==> r.value.count == |values|
    ensures r.Some? ==> r.value.min in values && r.value.max in values
    ensures r.Some? ==> forall i :: 0 <= i < |values| ==> r.value.min <= values[i] <= r.value.max
    ensures r.Some? ==> r.value.min <= r.value.median <= r.value.max
    ensures r.Some? ==> r.value.min <= r.value.p90 <= r.value.max
  {
    if values == [] then None
    else
      var s := SortReals(values);
      SortedEnds(values);
      Some(Summary(|values|, s[0], s[|s| - 1], Mean(values), Median(s),
        Percentile(values, 0.9), Percentile(values, 0.95), Percentile(values, 0.99)))
  }

  /** get_histogram_stats as written over the recorded values: None for the
      empty dict; a single value makes its p90 raise IndexError; otherwise
      the statistics the corrected version reports. */
  function HistogramStats(values: seq<real>): (r: Result<Option<Summary>, string>)
    ensures r.Err? <==> |values| == 1
    ensures r.Err? ==> r.error == "IndexError"
    ensures r.Ok? ==> r.value == IntendedHistogramStats(values)
  {
    if values == [] then Ok(None)
    else
      var p90, p95, p99 :=
        PercentileAsWritten(values, 0.9), PercentileAsWritten(values, 0.95), PercentileAsWritten(values, 0.99);
      if p90.Err? || p95.Err? || p99.Err? then Err("IndexError")
      else
        PercentileAgrees(values, 0.9);
        PercentileAgrees(values, 0.95);
        PercentileAgrees(values, 0.99);
        var s := SortReals(values);
        Ok(Some(Summary(|values|, s[0], s[|s| - 1], Mean(values), Median(s), p90.value, p95.value, p99.value)))
  }

  // ---------------------------------------------------------------------
  // PerformanceStats

  /** A float that may be `inf`: min_time before any update. */
  datatype Extended = Infinity | Finite(r: real)

  /** min(a, d) */
  function MinWith(a: Extended, d: real): real {
    if a.Finite? && a.r <= d then a.r else d
  }

  function Max(a: real, b: real): real {
    if a >= b then a else b
  }

  /** The least duration, `inf` for none. */
  function Lowest(ds: seq<real>): (r: Extended)
    ensures r.Infinity? <==> ds == []
    ensures r.Finite? ==> r.r in ds && forall i :: 0 <= i < |ds| ==> r.r <= ds[i]
  {
    if ds == [] then Infinity else Finite(MinWith(Lowest(ds[..|ds| - 1]), ds[|ds| - 1]))
  }

  /** The greatest duration, never below the initial 0.0. */
  function Highest(ds: seq<real>): (r: real)
    ensures r >= 0.0 && forall i :: 0 <= i < |ds| ==> ds[i] <= r
    ensures r == 0.0 || r in ds
  {
    if ds == [] then 0.0 else Max(Highest(ds[..|ds| - 1]), ds[|ds| - 1])
  }

  function Average(ds: seq<real>): real {
    if ds == [] then 0.0 else Sum(ds) / |ds| as real
  }

  /** The five fields of a PerformanceStats. */
  datatype StatsValue = StatsValue(count: nat, totalTime: real, minTime: Extended, maxTime: real, avgTime: real)

  /** The field defaults of a new PerformanceStats. */
  const InitialStats := StatsValue(0, 0.0, Infinity, 0.0, 0.0)

  /** What update(duration) makes of the five fields. */
  function Updated(s: StatsValue, duration: real): StatsValue {
    var count := s.count + 1;
    var total := s.totalTime + duration;
    StatsValue(count, total, Finite(MinWith(s.minTime, duration)), Max(s.maxTime, duration), total / count as real)
  }

  /** The fields after a new PerformanceStats has seen the durations ds. */
  function StatsOf(ds: seq<real>): StatsValue {
    if ds == [] then InitialStats else Updated(StatsOf(ds[..|ds| - 1]), ds[|ds| - 1])
  }

  /** After any run of updates each field is the statistic its name promises
      over the durations seen: their number, their sum, the least (`inf`
      for none), the greatest (at least 0.0) and their mean. */
  lemma {:induction false} StatsOfDurations(ds: seq<real>)
    ensures StatsOf(ds) == StatsValue(|ds|, Sum(ds), Lowest(ds), Highest(ds), Average(ds))
  {
    if ds != [] {
      StatsOfDurations(ds[..|ds| - 1]);
    }
  }

  /** Timing statistics of one operation. `durations` are the durations it
      has been updated with; a new object describes them (Valid) and keeps
      doing so under update. */
  class PerformanceStats {
    var count: nat
    var totalTime: real
    var minTime: Extended
    var maxTime: real
    var avgTime: real
    ghost var durations: seq<real>
    /** The operation these statistics belong to, which tells the objects
        of two operations apart. */
    ghost const operation: string

    function Fields(): StatsValue
      reads this
    {
      StatsValue(count, totalTime, minTime, maxTime, avgTime)
    }

    ghost predicate Valid()
      reads this
    {
      Fields() == StatsOf(durations)
    }

    constructor (ghost operation: string)
      ensures Valid() && durations == [] && this.operation == operation
      ensures Fields() == InitialStats
    {
      count, totalTime, minTime, maxTime, avgTime := 0, 0.0, Infinity, 0.0, 0.0;
      durations := [];
      this.operation := operation;
    }

    /** update(duration) */
    method Update(duration: real)
      modifies this
      ensures Fields() == Updated(old(Fields()), duration)
      ensures durations == old(durations) + [duration]
      ensures old(Valid()) ==> Valid()
    {
      durations := durations + [duration];
      assert durations[..|durations| - 1] == old(durations);
      count := count + 1;
      totalTime := totalTime + duration;
      minTime := Finite(MinWith(minTime, duration));
      maxTime := Max(maxTime, duration);
      avgTime := totalTime / count as real;
    }
  }

  /** What get_all_metrics reports for one operation; min_time shows 0.0
      while it is still `inf`. */
  datatype PerformanceSummary = PerformanceSummary(
    count: nat, totalTime: real, minTime: real, maxTime: real, avgTime: real)

  function Summarize(s: StatsValue): PerformanceSummary {
    PerformanceSummary(s.count, s.totalTime, if s.minTime.Infinity? then 0.0 else s.minTime.r,
      s.maxTime, s.avgTime)
  }

  /** The report of an operation's statistics gives the number, sum, least
      (0.0 for none), greatest and mean of its durations. */
  lemma SummaryOfDurations(ds: seq<real>)
    ensures Summarize(StatsOf(ds)) ==
      PerformanceSummary(|ds|, Sum(ds), if ds == [] then 0.0 else Lowest(ds).r, Highest(ds), Average(ds))
  {
    StatsOfDurations(ds);
  }

  /** A counter's value, 0 for a key never counted. */
  function CountIn(counters: map<string, int>, key: string): int {
    if key in counters then counters[key] else 0
  }

  /** The history a key has in the map, empty for a key never recorded. */
  function HistoryIn(metrics: map<string, seq<MetricValue>>, key: string): seq<MetricValue> {
    if key in metrics then metrics[key] else []
  }

  /** The statistics get_all_metrics computes for a stored key: those of
      the key rebuilt from it, or the exception raised on the way. */
  function KeyStats(metrics: map<string, seq<MetricValue>>, k: string): (r: Result<Option<Summary>, string>)
    ensures r.Err? <==> RebuiltKey(k).Err? || |HistoryIn(metrics, RebuiltKey(k).value)| == 1
    ensures r.Err? ==> r.error == "ValueError" || r.error == "IndexError"
    ensures RebuiltKey(k) == Ok(k) ==> r == HistogramStats(ValuesOf(HistoryIn(metrics, k)))
    ensures r.Ok? ==> RebuiltKey(k).Ok? && r.value == IntendedHistogramStats(ValuesOf(HistoryIn(metrics, RebuiltKey(k).value)))
  {
    match RebuiltKey(k)
    case Err(e) => Err(e)
    case Ok(key) => HistogramStats(ValuesOf(HistoryIn(metrics, key)))
  }

  /** The "histograms" part of get_all_metrics: the comprehension visits
      the stored keys in insertion order (`order`) and computes, for each,
      the statistics of the key rebuilt from it. It raises the exception of
      the first key whose labels do not parse (ValueError) or whose rebuilt
      key's history holds a single value (IndexError). */
  function Histograms(metrics: map<string, seq<MetricValue>>, order: seq<string>): (r: Result<map<string, Option<Summary>>, string>)
    ensures r.Err? ==> r.error == "ValueError" || r.error == "IndexError"
    ensures r.Ok? ==> r.value.Keys == set k | k in order
    ensures r.Ok? ==> forall k :: k in order ==> KeyStats(metrics, k) == Ok(r.value[k])
    ensures r.Ok? ==> forall k :: k in order ==>
      RebuiltKey(k).Ok? && r.value[k] == IntendedHistogramStats(ValuesOf(HistoryIn(metrics, RebuiltKey(k).value)))
    decreases |order|
  {
    if order == [] then Ok(map[])
    else
      match KeyStats(metrics, order[0])
      case Err(e) => Err(e)
      case Ok(s) =>
        match Histograms(metrics, order[1..])
        case Err(e) => Err(e)
        case Ok(h) => Ok(h[order[0] := s])
  }

  /** The first key of `order` whose statistics raise is the one at `i`. */
  predicate FailsFirstAt(metrics: map<string, seq<MetricValue>>, order: seq<string>, i: int) {
    0 <= i < |order| && KeyStats(metrics, order[i]).Err? &&
    forall j :: 0 <= j < i ==> KeyStats(metrics, order[j]).Ok?
  }

  /** Raising histograms have a first key. They raise its exception when
      its statistics raise, and otherwise what the remaining keys raise. */
  lemma HistogramsStep(metrics: map<string, seq<MetricValue>>, order: seq<string>)
    requires Histograms(metrics, order).Err?
    ensures |order| > 0
    ensures KeyStats(metrics, order[0]).Err? ==> KeyStats(metrics, order[0]).error == Histograms(metrics, order).error
    ensures KeyStats(metrics, order[0]).Ok? ==> Histograms(metrics, order[1..]) == Histograms(metrics, order)
  {
  }

  /** When the histograms raise, they raise the exception of the first
      stored key, in insertion order, whose statistics raise. */
  lemma HistogramsRaiseFirst(metrics: map<string, seq<MetricValue>>, order: seq<string>) returns (i: int)
    requires Histograms(metrics, order).Err?
    ensures FailsFirstAt(metrics, order, i)
    ensures KeyStats(metrics, order[i]) == Err(Histograms(metrics, order).error)
  {
    i := 0;
    HistogramsStep(metrics, order);
    while KeyStats(metrics, order[i]).Ok?
      invariant 0 <= i < |order|
      invariant Histograms(metrics, order[i..]) == Histograms(metrics, order)
      invariant forall j :: 0 <= j < i ==> KeyStats(metrics, order[j]).Ok?
      decreases |order| - i
    {
      HistogramsStep(metrics, order[i..]);
      assert order[i..][1..] == order[i + 1..];
      HistogramsStep(metrics, order[i + 1..]);
      i := i + 1;
    }
    HistogramsStep(metrics, order[i..]);
  }


  /** The histograms raise exactly when some stored key's statistics do,
      and then with the exception of the first such key in insertion
      order. */
  lemma HistogramsRaise(metrics: map<string, seq<MetricValue>>, order: seq<string>)
    ensures Histograms(metrics, order).Err? <==> exists i :: 0 <= i < |order| && KeyStats(metrics, order[i]).Err?
    ensures Histograms(metrics, order).Err? ==>
      exists i :: FailsFirstAt(metrics, order, i) && KeyStats(metrics, order[i]) == Err(Histograms(metrics, order).error)
  {
    if Histograms(metrics, order).Err? {
      var i := HistogramsRaiseFirst(metrics, order);
    }
  }

  /** Which exception get_all_metrics raises depends on the order in which
      the keys were first recorded: with one value under "a" and one under
      "n|x" (a bare name holding "|", which _make_key keeps as it is), the
      first raises IndexError and the second ValueError. */
  lemma FirstFailingKeyWins(v: MetricValue)
    ensures var metrics := map["a" := [v], "n|x" := [v]];
      Histograms(metrics, ["a", "n|x"]) == Err("IndexError") &&
      Histograms(metrics, ["n|x", "a"]) == Err("ValueError")
  {
    var metrics := map["a" := [v], "n|x" := [v]];
    RebuiltKeyOfMakeKey("a", []);
    assert MakeKey("a", []) == "a";
    assert KeyStats(metrics, "a") == Err("IndexError");
    assert Split("x", ',') == ["x"];
    assert ParsePairs(["x"]) == Err("ValueError");
    assert KeyStats(metrics, "n|x") == Err("ValueError");
  }

  /** A stored key with a single recorded value, as one record_counter
      leaves behind, makes the histograms raise. */
  lemma OneValueHistoryRaises(metrics: map<string, seq<MetricValue>>, order: seq<string>, name: string, labels: Labels)
    requires DistinctKeys(labels) && Encodable(name, labels)
    requires MakeKey(name, labels) in order && MakeKey(name, labels) in metrics && |metrics[MakeKey(name, labels)]| == 1
    ensures Histograms(metrics, order).Err?
  {
    RebuiltKeyOfMakeKey(name, labels);
    var i :| 0 <= i < |order| && order[i] == MakeKey(name, labels);
    assert KeyStats(metrics, order[i]).Err?;
    HistogramsRaise(metrics, order);
  }

  /** The keys of a defaultdict after `d[key]`: a key seen for the first
      time goes last. */
  function Inserted(order: seq<string>, key: string): seq<string> {
    if key in order then order else order + [key]
  }

  /** The keys `order` lists. */
  ghost function Elements(order: seq<string>): set<string>
    decreases |order|
  {
    if order == [] then {} else Elements(order[..|order| - 1]) + {order[|order| - 1]}
  }

  lemma {:induction false} ElementsMembers(order: seq<string>)
    ensures forall k :: k in Elements(order) <==> k in order
    decreases |order|
  {
    if order != [] {
      var init := order[..|order| - 1];
      ElementsMembers(init);
      assert order == init + [order[|order| - 1]];
    }
  }

  /** `order` lists the keys of `metrics`, each once. */
  ghost predicate KeysInOrder<V>(metrics: map<string, V>, order: seq<string>) {
    metrics.Keys == Elements(order) && |Elements(order)| == |order|
  }

  /** Storing under a key and inserting it into the order keep the order
      listing the keys, each once. */
  lemma InsertedKeys<V>(metrics: map<string, V>, order: seq<string>, key: string, v: V)
    requires KeysInOrder(metrics, order)
    ensures KeysInOrder(metrics[key := v], Inserted(order, key))
  {
    ElementsMembers(order);
    if key !in order {
      assert (order + [key])[..|order|] == order;
    }
  }

  /** The keys an order lists. */
  lemma OrderKeys(order: seq<string>)
    ensures (set k | k in order) == Elements(order)
  {
    ElementsMembers(order);
  }

  /** Histograms that succeed over the stored keys hold each stored key's
      statistics. */
  lemma HistogramsOfStoredOk(metrics: map<string, seq<MetricValue>>, order: seq<string>,
                             h: map<string, Option<Summary>>)
    requires KeysInOrder(metrics, order) && Histograms(metrics, order) == Ok(h)
    ensures h.Keys == metrics.Keys
    ensures forall k :: k in metrics ==> KeyStats(metrics, k) == Ok(h[k])
    ensures forall k :: k in metrics && RebuiltKey(k) == Ok(k) ==> h[k] == IntendedHistogramStats(ValuesOf(metrics[k]))
  {
    OrderKeys(order);
    forall k | k in metrics
      ensures k in h && KeyStats(metrics, k) == Ok(h[k])
    {
      assert k in order;
    }
    forall k | k in metrics && RebuiltKey(k) == Ok(k)
      ensures h[k] == IntendedHistogramStats(ValuesOf(metrics[k]))
    {
      assert k in order;
      assert HistoryIn(metrics, k) == metrics[k];
    }
  }

  /** When `order` lists the stored keys, the histograms fail exactly
      when some stored key's statistics fail, with the error of the first
      such key in `order`; otherwise they hold each stored key's
      statistics, and a key that rebuilds to itself gets the statistics
      of its own history. */
  lemma HistogramsOfStored(metrics: map<string, seq<MetricValue>>, order: seq<string>)
    requires KeysInOrder(metrics, order)
    ensures Histograms(metrics, order).Err? <==> exists k :: k in metrics && KeyStats(metrics, k).Err?
    ensures Histograms(metrics, order).Err? ==>
      exists i :: FailsFirstAt(metrics, order, i) && KeyStats(metrics, order[i]) == Err(Histograms(metrics, order).error)
    ensures Histograms(metrics, order).Ok? ==>
      var h := Histograms(metrics, order).value;
      h.Keys == metrics.Keys &&
      (forall k :: k in metrics ==> KeyStats(metrics, k) == Ok(h[k])) &&
      forall k :: k in metrics && RebuiltKey(k) == Ok(k) ==> h[k] == IntendedHistogramStats(ValuesOf(metrics[k]))
  {
    var r := Histograms(metrics, order);
    if r.Ok? {
      HistogramsOfStoredOk(metrics, order, r.value);
    } else {
      ElementsMembers(order);
      HistogramsRaise(metrics, order);
      var i :| FailsFirstAt(metrics, order, i) && KeyStats(metrics, order[i]) == Err(r.error);
      assert order[i] in metrics;
    }
  }

  /** Each stored history is the recent part of what was recorded, and
      `order` lists the stored keys. */
  ghost predicate HistoriesMatch(metrics: map<string, seq<MetricValue>>, order: seq<string>,
                                 recorded: map<string, seq<MetricValue>>, maxHistory: nat)
  {
    recorded.Keys == metrics.Keys && KeysInOrder(metrics, order) &&
    forall k :: k in metrics ==> metrics[k] == Recent(recorded[k], maxHistory)
  }

  /** Appending to one key's history keeps each stored history the
      recent part of what was recorded. */
  lemma AppendRecent(metrics: map<string, seq<MetricValue>>, recorded: map<string, seq<MetricValue>>,
                     maxHistory: nat, key: string, x: MetricValue)
    requires recorded.Keys == metrics.Keys
    requires forall k :: k in metrics ==> metrics[k] == Recent(recorded[k], maxHistory)
    ensures var m := metrics[key := Push(HistoryIn(metrics, key), x, maxHistory)];
      var r := recorded[key := HistoryIn(recorded, key) + [x]];
      forall k :: k in m ==> m[k] == Recent(r[k], maxHistory)
  {
    var m := metrics[key := Push(HistoryIn(metrics, key), x, maxHistory)];
    var r := recorded[key := HistoryIn(recorded, key) + [x]];
    forall k | k in m
      ensures m[k] == Recent(r[k], maxHistory)
    {
      if k == key {
        PushRecent(HistoryIn(recorded, key), x, maxHistory);
      }
    }
  }

  /** Appending to one key's history keeps the histories matching what was
      recorded. */
  lemma AppendMatches(metrics: map<string, seq<MetricValue>>, order: seq<string>,
                      recorded: map<string, seq<MetricValue>>, maxHistory: nat, key: string, x: MetricValue)
    requires HistoriesMatch(metrics, order, recorded, maxHistory)
    ensures HistoriesMatch(metrics[key := Push(HistoryIn(metrics, key), x, maxHistory)], Inserted(order, key),
                           recorded[key := HistoryIn(recorded, key) + [x]], maxHistory)
  {
    AppendRecent(metrics, recorded, maxHistory, key, x);
    InsertedKeys(metrics, order, key, Push(HistoryIn(metrics, key), x, maxHistory));
  }

  /** `Inserted` for each of `keys` in turn. */
  function InsertedAll(order: seq<string>, keys: seq<string>): seq<string>
    decreases |keys|
  {
    if keys == [] then order else InsertedAll(Inserted(order, keys[0]), keys[1..])
  }

  datatype AllMetrics = AllMetrics(
    counters: map<string, int>,
    gauges: map<string, real>,
    histograms: map<string, Option<Summary>>,
    performance: map<string, PerformanceSummary>)

  // ---------------------------------------------------------------------
  // The collector

  /** Setting a key to the value it has changes nothing. */
  lemma SameUpdate<K, V>(m: map<K, V>, k: K)
    requires k in m
    ensures m == m[k := m[k]]
  {
  }

  class MetricsCollector {
    const maxHistory: nat
    var metrics: map<string, seq<MetricValue>>
    /** The keys of `metrics` in the order they were first recorded, the
        order in which a dict iterates them. */
    var order: seq<string>
    var performance: map<string, PerformanceStats>
    var counters: map<string, int>
    var gauges: map<string, real>
    /** Every value ever appended per key, of which `metrics` keeps the
        most recent. */
    ghost var recorded: map<string, seq<MetricValue>>
    /** Every duration recorded per operation. */
    ghost var timings: map<string, seq<real>>

    ghost predicate Valid()
      reads this`metrics, this`order, this`recorded, this`performance, this`timings, performance.Values
    {
      HistoriesValid() && PerformanceValid()
    }

    /** Each stored history is the recent part of what was recorded. */
    ghost predicate HistoriesValid()
      reads this`metrics, this`order, this`recorded
    {
      HistoriesMatch(metrics, order, recorded, maxHistory)
    }

    /** Each operation has its own statistics object, which describes the
        durations recorded for it. */
    ghost predicate PerformanceValid()
      reads this`performance, this`timings, performance.Values
    {
      timings.Keys == performance.Keys &&
      forall k :: k in performance ==>
        performance[k].operation == k && performance[k].Valid() && performance[k].durations == timings[k]
    }

    constructor (maxHistory: nat)
      ensures Valid() && this.maxHistory == maxHistory
      ensures metrics == map[] && order == [] && performance == map[] && counters == map[] && gauges == map[]
      ensures recorded == map[] && timings == map[]
    {
      this.maxHistory := maxHistory;
      metrics, order, performance, counters, gauges := map[], [], map[], map[], map[];
      recorded, timings := map[], map[];
    }

    function History(key: string): seq<MetricValue>
      reads this
    {
      HistoryIn(metrics, key)
    }

    ghost function Recorded(key: string): seq<MetricValue>
      reads this
    {
      HistoryIn(recorded, key)
    }

    ghost function Timings(name: string): seq<real>
      reads this`timings
    {
      if name in timings then timings[name] else []
    }

    function CounterOf(key: string): int
      reads this
    {
      CountIn(counters, key)
    }

    /** `self._metrics[key].append(x)` */
    method Append(key: string, x: MetricValue)
      requires Valid()
      modifies this`metrics, this`order, this`recorded
      ensures Valid()
      ensures metrics == old(metrics)[key := Push(HistoryIn(old(metrics), key), x, maxHistory)]
      ensures order == Inserted(old(order), key)
      ensures recorded == old(recorded)[key := HistoryIn(old(recorded), key) + [x]]
      ensures counters == old(counters) && gauges == old(gauges)
      ensures performance == old(performance) && timings == old(timings)
    {
      order, metrics, recorded :=
        Inserted(order, key), metrics[key := Push(HistoryIn(metrics, key), x, maxHistory)],
        recorded[key := HistoryIn(recorded, key) + [x]];
      AppendMatches(old(metrics), old(order), old(recorded), maxHistory, key, x);
    }

    /** record_counter: the counter grows by `value` and its history gains
        the new running total. */
    method RecordCounter(name: string, value: int, labels: Labels)
      requires Valid() && DistinctKeys(labels)
      modifies this
      ensures Valid()
      ensures GetCounter(name, labels) == old(GetCounter(name, labels)) + value
      ensures var key := MakeKey(name, labels);
        counters == old(counters)[key := old(CounterOf(key)) + value] &&
        metrics == old(metrics)[key := Push(old(History(key)), MetricValue(counters[key] as real, labels), maxHistory)] &&
        recorded == old(recorded)[key := old(Recorded(key)) + [MetricValue(counters[key] as real, labels)]] &&
        order == Inserted(old(order), key)
      ensures gauges == old(gauges) && performance == old(performance) && timings == old(timings)
    {
      var key := MakeKey(name, labels);
      var total := CounterOf(key) + value;
      counters := counters[key := total];
      Append(key, MetricValue(total as real, labels));
    }

    /** record_gauge: the gauge takes `value`, which also joins its history. */
    method RecordGauge(name: string, value: real, labels: Labels)
      requires Valid() && DistinctKeys(labels)
      modifies this
      ensures Valid()
      ensures GetGauge(name, labels) == value
      ensures var key := MakeKey(name, labels);
        gauges == old(gauges)[key := value] &&
        metrics == old(metrics)[key := Push(old(History(key)), MetricValue(value, labels), maxHistory)] &&
        recorded == old(recorded)[key := old(Recorded(key)) + [MetricValue(value, labels)]] &&
        order == Inserted(old(order), key)
      ensures counters == old(counters) && performance == old(performance) && timings == old(timings)
    {
      var key := MakeKey(name, labels);
      gauges := gauges[key := value];
      Append(key, MetricValue(value, labels));
    }

    /** record_histogram: the value joins the key's history. */
    method RecordHistogram(name: string, value: real, labels: Labels)
      requires Valid() && DistinctKeys(labels)
      modifies this
      ensures Valid()
      ensures var key := MakeKey(name, labels);
        metrics == old(metrics)[key := Push(old(History(key)), MetricValue(value, labels), maxHistory)] &&
        recorded == old(recorded)[key := old(Recorded(key)) + [MetricValue(value, labels)]] &&
        order == Inserted(old(order), key)
      ensures counters == old(counters) && gauges == old(gauges)
      ensures performance == old(performance) && timings == old(timings)
    {
      Append(MakeKey(name, labels), MetricValue(value, labels));
    }

    /** record_performance: the operation's statistics, created on first
        use, take one more duration; the other operations keep theirs. */
    method RecordPerformance(name: string, duration: real)
      requires Valid()
      modifies this, if name in performance then {performance[name]} else {}
      ensures Valid()
      ensures timings == old(timings)[name := old(Timings(name)) + [duration]]
      ensures name in performance
      ensures performance == old(performance)[name := performance[name]]
      ensures name in old(performance) ==> performance[name] == old(performance[name])
      ensures unchanged(this`metrics, this`order, this`recorded, this`counters, this`gauges)
    {
      if name in performance {
        UpdateStats(name, duration);
        SameUpdate(performance, name);
      } else {
        AddStats(name, duration);
      }
    }

    /** An operation seen before: its own statistics object takes the
        duration. */
    method UpdateStats(name: string, duration: real)
      requires name in performance
      requires Valid()
      modifies this`timings, performance[name]
      ensures Valid()
      ensures timings == old(timings)[name := old(Timings(name)) + [duration]]
      ensures unchanged(this`metrics, this`order, this`recorded, this`counters, this`gauges, this`performance)
    {
      var stats := performance[name];
      stats.Update(duration);
      timings := timings[name := timings[name] + [duration]];
      forall k | k in performance
        ensures performance[k].operation == k && performance[k].Valid() && performance[k].durations == timings[k]
      {
        if k != name {
          assert performance[k] != stats;
        }
      }
    }

    /** A new operation: a fresh statistics object takes the duration. */
    method AddStats(name: string, duration: real)
      requires name !in performance
      requires Valid()
      modifies this`performance, this`timings
      ensures Valid()
      ensures timings == old(timings)[name := old(Timings(name)) + [duration]]
      ensures name in performance && fresh(performance[name])
      ensures performance == old(performance)[name := performance[name]]
      ensures unchanged(this`metrics, this`order, this`recorded, this`counters, this`gauges)
    {
      var stats := NewStats(name, duration);
      ghost var before := performance;
      timings, performance := old(timings)[name := old(Timings(name)) + [duration]], performance[name := stats];
      forall k | k in performance
        ensures performance[k].operation == k && performance[k].Valid() && performance[k].durations == timings[k]
      {
        if k != name {
          assert performance[k] == before[k];
        }
      }
    }

    /** The statistics of an operation's first call. */
    static method NewStats(name: string, duration: real) returns (stats: PerformanceStats)
      ensures fresh(stats) && stats.Valid() && stats.operation == name && stats.durations == [duration]
    {
      stats := new PerformanceStats(name);
      stats.Update(duration);
    }

    /** get_counter: 0 for a key never counted. */
    function GetCounter(name: string, labels: Labels): (r: int)
      requires DistinctKeys(labels)
      reads this
      ensures MakeKey(name, labels) !in counters ==> r == 0
      ensures MakeKey(name, labels) in counters ==> r == counters[MakeKey(name, labels)]
    {
      CounterOf(MakeKey(name, labels))
    }

    /** get_gauge: 0.0 for a key never set. */
    function GetGauge(name: string, labels: Labels): (r: real)
      requires DistinctKeys(labels)
      reads this
      ensures MakeKey(name, labels) !in gauges ==> r == 0.0
      ensures MakeKey(name, labels) in gauges ==> r == gauges[MakeKey(name, labels)]
    {
      var key := MakeKey(name, labels);
      if key in gauges then gauges[key] else 0.0
    }

    /** get_histogram_stats: the statistics of the values the key's history
        holds, None (the empty dict) when it holds none, IndexError when it
        holds exactly one. */
    function GetHistogramStats(name: string, labels: Labels): (r: Result<Option<Summary>, string>)
      requires DistinctKeys(labels)
      reads this
      ensures r == Ok(None) <==> History(MakeKey(name, labels)) == []
      ensures r.Err? <==> |History(MakeKey(name, labels))| == 1
      ensures r.Err? ==> r.error == "IndexError"
      ensures r.Ok? ==> r.value == IntendedHistogramStats(ValuesOf(History(MakeKey(name, labels))))
    {
      HistogramStats(ValuesOf(History(MakeKey(name, labels))))
    }

    /** get_performance_stats */
    function GetPerformanceStats(name: string): (r: Option<PerformanceStats>)
      requires Valid()
      reads this, performance.Values
      ensures r.Some? <==> name in performance
      ensures r.Some? ==> r.value.Valid() && r.value.durations == timings[name]
    {
      if name in performance then Some(performance[name]) else None
    }

    /** get_all_metrics: the exception of the first stored key, in the
        order the keys were first recorded, whose labels do not parse
        (ValueError) or whose rebuilt key's history holds a single value
        (IndexError); otherwise the live counters and gauges, the
        statistics of the key rebuilt from each stored key, and each
        operation's timings. */
    function GetAllMetrics(): (r: Result<AllMetrics, string>)
      requires HistoriesValid()
      reads this, performance.Values
      ensures r.Err? <==> exists k :: k in metrics && KeyStats(metrics, k).Err?
      ensures r.Err? ==> exists i :: FailsFirstAt(metrics, order, i) && KeyStats(metrics, order[i]) == Err(r.error)
      ensures r.Err? ==> r.error == "ValueError" || r.error == "IndexError"
      ensures r.Ok? ==> r.value.counters == counters && r.value.gauges == gauges
      ensures r.Ok? ==> r.value.histograms.Keys == metrics.Keys && r.value.performance.Keys == performance.Keys
      ensures r.Ok? ==> forall k :: k in metrics ==> KeyStats(metrics, k) == Ok(r.value.histograms[k])
      ensures r.Ok? ==> forall k :: k in metrics && RebuiltKey(k) == Ok(k) ==>
        r.value.histograms[k] == IntendedHistogramStats(ValuesOf(metrics[k]))
      ensures r.Ok? ==> Histograms(metrics, order) == Ok(r.value.histograms) && r.value.performance == Summaries()
    {
      HistogramsOfStored(metrics, order);
      match Histograms(metrics, order)
      case Err(e) => Err(e)
      case Ok(h) => Ok(AllMetrics(counters, gauges, h, Summaries()))
    }

    /** The "performance" part of get_all_metrics. */
    function Summaries(): (r: map<string, PerformanceSummary>)
      reads this, performance.Values
      ensures r.Keys == performance.Keys
      ensures forall k :: k in performance ==> r[k] == Summarize(performance[k].Fields())
    {
      map k | k in performance :: Summarize(performance[k].Fields())
    }

    /** reset: all four maps are emptied. */
    method Reset()
      modifies this
      ensures Valid()
      ensures metrics == map[] && order == [] && performance == map[] && counters == map[] && gauges == map[]
      ensures recorded == map[] && timings == map[]
    {
      metrics, order, performance, counters, gauges := map[], [], map[], map[], map[];
      recorded, timings := map[], map[];
    }
  }

  // ---------------------------------------------------------------------
  // track_performance

  /** How the decorated call ended: it returned, raised an Exception of the
      named type (which the wrapper counts and re-raises), or raised a
      BaseException that is not an Exception, such as KeyboardInterrupt or
      SystemExit, which `except Exception` lets through uncounted. */
  datatype Outcome = Returned | Raised(errorType: string) | Interrupted(exceptionType: string)

  function FunctionLabel(funcName: string): Labels {
    [("function", funcName)]
  }

  function ErrorLabels(funcName: string, errorType: string): Labels {
    [("function", funcName), ("error_type", errorType)]
  }

  lemma JoinTwo(a: string, b: string)
    ensures Join(",", [a, b]) == a + "," + b
  {
    assert [a, b][1..] == [b];
  }

  /** The suffix of a metric labelled with the function alone:
      "|function=<funcName>". */
  function FunctionSuffix(funcName: string): string {
    "|" + ("function" + "=" + funcName)
  }

  /** The suffix of an error count: "|error_type=<errorType>,function=<funcName>",
      the labels sorted by name. */
  function ErrorSuffix(funcName: string, errorType: string): string {
    "|" + (("error_type" + "=" + errorType) + "," + ("function" + "=" + funcName))
  }

  /** The key of a metric labelled with the function alone. */
  lemma FunctionKeyForm(name: string, funcName: string)
    ensures DistinctKeys(FunctionLabel(funcName))
    ensures MakeKey(name, FunctionLabel(funcName)) == name + FunctionSuffix(funcName)
  {
    assert SortByKey(FunctionLabel(funcName)) == FunctionLabel(funcName);
    assert RenderPairs(FunctionLabel(funcName)) == ["function" + "=" + funcName];
  }

  /** The key of an error count: the labels come out sorted, error_type
      before function, whatever order the dict was written in. */
  lemma ErrorKeyForm(name: string, funcName: string, errorType: string)
    ensures DistinctKeys(ErrorLabels(funcName, errorType))
    ensures MakeKey(name, ErrorLabels(funcName, errorType)) == name + ErrorSuffix(funcName, errorType)
  {
    var given := ErrorLabels(funcName, errorType);
    var sorted := [("error_type", errorType), ("function", funcName)];
    assert DistinctKeys(given) && SortByKey(given) == sorted by {
      assert LexLess("error_type", "function") by {
        assert "error_type"[0] == 'e' && "function"[0] == 'f';
      }
      SortByKeySorted(sorted);
      assert multiset(given) == multiset(sorted);
      SortByKeyOrderFree(given, sorted);
    }
    var a, b := "error_type" + "=" + errorType, "function" + "=" + funcName;
    assert RenderPairs(sorted) == [a, b];
    JoinTwo(a, b);
  }

  /** "<op>_requests_total|function=<funcName>" */
  function TotalKey(op: string, funcName: string): string {
    op + "_requests_total" + FunctionSuffix(funcName)
  }

  /** "<op>_requests_success|function=<funcName>" */
  function SuccessKey(op: string, funcName: string): string {
    op + "_requests_success" + FunctionSuffix(funcName)
  }

  /** "<op>_requests_error|error_type=<errorType>,function=<funcName>" */
  function ErrorKey(op: string, funcName: string, errorType: string): string {
    op + "_requests_error" + ErrorSuffix(funcName, errorType)
  }

  /** "<op>_duration_seconds|function=<funcName>" */
  function DurationKey(op: string, funcName: string): string {
    op + "_duration_seconds" + FunctionSuffix(funcName)
  }

  /** `counters[key] += 1` on a defaultdict(int). */
  function Bump(counters: map<string, int>, key: string): map<string, int> {
    counters[key := CountIn(counters, key) + 1]
  }

  /** The counters after one tracked call: the total grows by one, then
      the success counter or the error type's counter, if the outcome has
      one. */
  function Tracked(counters: map<string, int>, op: string, funcName: string, outcome: Outcome): map<string, int> {
    var total := Bump(counters, TotalKey(op, funcName));
    match outcome
    case Returned => Bump(total, SuccessKey(op, funcName))
    case Raised(t) => Bump(total, ErrorKey(op, funcName, t))
    case Interrupted(_) => total
  }

  lemma DifferAt(p: string, q: string, s: string, t: string, i: nat)
    requires i < |p| && i < |q| && p[i] != q[i]
    ensures p + s != q + t
  {
    assert (p + s)[i] == p[i] && (q + t)[i] == q[i];
  }

  /** Two error keys of one function differ when their error types do. */
  lemma ErrorKeyInjective(op: string, funcName: string, t: string, u: string)
    requires ErrorKey(op, funcName, t) == ErrorKey(op, funcName, u)
    ensures t == u
  {
    var n := |op + "_requests_error"| + 12;
    var k1, k2 := ErrorKey(op, funcName, t), ErrorKey(op, funcName, u);
    assert |t| == |u|;
    forall i | 0 <= i < |t|
      ensures t[i] == u[i]
    {
      assert k1[n + i] == t[i] && k2[n + i] == u[i];
    }
  }

  /** The metric names of one operation differ, so the keys of one tracked
      call are different keys. */
  lemma TrackedKeysDiffer(op: string, funcName: string, t: string)
    ensures TotalKey(op, funcName) != SuccessKey(op, funcName)
    ensures TotalKey(op, funcName) != ErrorKey(op, funcName, t)
    ensures SuccessKey(op, funcName) != ErrorKey(op, funcName, t)
    ensures DurationKey(op, funcName) != TotalKey(op, funcName)
    ensures DurationKey(op, funcName) != SuccessKey(op, funcName)
    ensures DurationKey(op, funcName) != ErrorKey(op, funcName, t)
  {
    var n := |op|;
    var total, success, error, duration :=
      op + "_requests_total", op + "_requests_success", op + "_requests_error", op + "_duration_seconds";
    assert total[n + 10] == 't' && success[n + 10] == 's' && error[n + 10] == 'e';
    assert duration[n + 1] == 'd' && total[n + 1] == 'r' && success[n + 1] == 'r' && error[n + 1] == 'r';
    var fl, el := FunctionSuffix(funcName), ErrorSuffix(funcName, t);
    DifferAt(total, success, fl, fl, n + 10);
    DifferAt(total, error, fl, el, n + 10);
    DifferAt(success, error, fl, el, n + 10);
    DifferAt(duration, total, fl, fl, n + 1);
    DifferAt(duration, success, fl, fl, n + 1);
    DifferAt(duration, error, fl, el, n + 1);
  }

  /** What one tracked call does to the counters: the total grows by one;
      the success counter grows by one exactly when the call returned; the
      error counter of the exception's type grows by one exactly when the
      call raised it, and the error counters of every other type stay as
      they were. A call that ends by a BaseException outside Exception
      changes the total alone. */
  lemma TrackedCounts(counters: map<string, int>, op: string, funcName: string, outcome: Outcome)
    ensures var after := Tracked(counters, op, funcName, outcome);
      CountIn(after, TotalKey(op, funcName)) == CountIn(counters, TotalKey(op, funcName)) + 1 &&
      CountIn(after, SuccessKey(op, funcName)) ==
        CountIn(counters, SuccessKey(op, funcName)) + (if outcome.Returned? then 1 else 0) &&
      forall t :: CountIn(after, ErrorKey(op, funcName, t)) ==
        CountIn(counters, ErrorKey(op, funcName, t)) + (if outcome == Raised(t) then 1 else 0)
    ensures outcome.Interrupted? ==>
      Tracked(counters, op, funcName, outcome) == Bump(counters, TotalKey(op, funcName))
  {
    var after := Tracked(counters, op, funcName, outcome);
    var t0 := if outcome.Raised? then outcome.errorType else "";
    TrackedKeysDiffer(op, funcName, t0);
    forall t
      ensures CountIn(after, ErrorKey(op, funcName, t)) ==
        CountIn(counters, ErrorKey(op, funcName, t)) + (if outcome == Raised(t) then 1 else 0)
    {
      TrackedKeysDiffer(op, funcName, t);
      if outcome.Raised? && outcome.errorType != t && ErrorKey(op, funcName, t) == ErrorKey(op, funcName, t0) {
        ErrorKeyInjective(op, funcName, t, t0);
      }
    }
  }

  /** The counter keys one tracked call bumps, in the order it bumps them. */
  function CountedKeys(op: string, funcName: string, outcome: Outcome): seq<string> {
    match outcome
    case Returned => [TotalKey(op, funcName), SuccessKey(op, funcName)]
    case Raised(t) => [TotalKey(op, funcName), ErrorKey(op, funcName, t)]
    case Interrupted(_) => [TotalKey(op, funcName)]
  }

  /** `self._metrics[key].append(x)`, on the record of every value. */
  function Pushed(recorded: map<string, seq<MetricValue>>, key: string, x: MetricValue): map<string, seq<MetricValue>> {
    recorded[key := HistoryIn(recorded, key) + [x]]
  }

  /** The record after one tracked call's record_counter calls, given the
      counters they leave: the total's running total, then the success or
      error counter's. */
  function CountedHistories(recorded: map<string, seq<MetricValue>>, counters: map<string, int>,
                            op: string, funcName: string, outcome: Outcome): map<string, seq<MetricValue>>
  {
    var total := TotalKey(op, funcName);
    var afterTotal := Pushed(recorded, total, MetricValue(CountIn(counters, total) as real, FunctionLabel(funcName)));
    match outcome
    case Returned =>
      var success := SuccessKey(op, funcName);
      Pushed(afterTotal, success, MetricValue(CountIn(counters, success) as real, FunctionLabel(funcName)))
    case Raised(t) =>
      var error := ErrorKey(op, funcName, t);
      Pushed(afterTotal, error, MetricValue(CountIn(counters, error) as real, ErrorLabels(funcName, t)))
    case Interrupted(_) => afterTotal
  }

  /** What one tracked call's counters leave in the histories: each
      counter it bumped gains its new running total, recorded with the
      labels the decorator passes, and every other key keeps its
      history. */
  lemma CountedHistoriesPushed(recorded: map<string, seq<MetricValue>>, counters: map<string, int>,
                               op: string, funcName: string, outcome: Outcome)
    ensures var after := CountedHistories(recorded, counters, op, funcName, outcome);
      var total, success := TotalKey(op, funcName), SuccessKey(op, funcName);
      HistoryIn(after, total) ==
        HistoryIn(recorded, total) + [MetricValue(CountIn(counters, total) as real, FunctionLabel(funcName))] &&
      (outcome.Returned? ==>
        HistoryIn(after, success) ==
          HistoryIn(recorded, success) + [MetricValue(CountIn(counters, success) as real, FunctionLabel(funcName))]) &&
      (outcome.Raised? ==>
        var error := ErrorKey(op, funcName, outcome.errorType);
        HistoryIn(after, error) ==
          HistoryIn(recorded, error) + [MetricValue(CountIn(counters, error) as real, ErrorLabels(funcName, outcome.errorType))]) &&
      (forall k :: k !in CountedKeys(op, funcName, outcome) ==> HistoryIn(after, k) == HistoryIn(recorded, k)) &&
      after.Keys == recorded.Keys + set k | k in CountedKeys(op, funcName, outcome)
  {
    TrackedKeysDiffer(op, funcName, if outcome.Raised? then outcome.errorType else "");
  }

  /** record_counter(name, labels=labels) with the default increment. */
  method CountOne(c: MetricsCollector, name: string, labels: Labels, ghost key: string)
    requires c.Valid() && DistinctKeys(labels)
    requires MakeKey(name, labels) == key
    modifies c
    ensures c.Valid()
    ensures c.counters == Bump(old(c.counters), key)
    ensures c.recorded == Pushed(old(c.recorded), key, MetricValue(CountIn(c.counters, key) as real, labels))
    ensures c.order == Inserted(old(c.order), key)
    ensures c.gauges == old(c.gauges) && c.performance == old(c.performance) && c.timings == old(c.timings)
  {
    c.RecordCounter(name, 1, labels);
  }

  /** The counter an outcome bumps after the total: the success counter,
      or the error counter of the raised type. */
  function OutcomeKey(op: string, funcName: string, outcome: Outcome): string
    requires !outcome.Interrupted?
  {
    if outcome.Returned? then SuccessKey(op, funcName) else ErrorKey(op, funcName, outcome.errorType)
  }

  /** The labels of that counter. */
  function OutcomeLabels(funcName: string, outcome: Outcome): Labels
    requires !outcome.Interrupted?
  {
    if outcome.Returned? then FunctionLabel(funcName) else ErrorLabels(funcName, outcome.errorType)
  }

  /** A counted outcome's call, as two record_counter steps: the total,
      then the outcome's own counter. */
  lemma OutcomeSteps(counters: map<string, int>, recorded: map<string, seq<MetricValue>>, order: seq<string>,
                     op: string, funcName: string, outcome: Outcome)
    requires !outcome.Interrupted?
    ensures var total, key := TotalKey(op, funcName), OutcomeKey(op, funcName, outcome);
      var final := Bump(Bump(counters, total), key);
      Tracked(counters, op, funcName, outcome) == final &&
      CountedHistories(recorded, final, op, funcName, outcome) ==
        Pushed(Pushed(recorded, total, MetricValue(CountIn(Bump(counters, total), total) as real, FunctionLabel(funcName))),
               key, MetricValue(CountIn(final, key) as real, OutcomeLabels(funcName, outcome))) &&
      InsertedAll(order, CountedKeys(op, funcName, outcome)) == Inserted(Inserted(order, total), key)
  {
    var total, key := TotalKey(op, funcName), OutcomeKey(op, funcName, outcome);
    TrackedKeysDiffer(op, funcName, if outcome.Raised? then outcome.errorType else "");
    var final := Bump(Bump(counters, total), key);
    assert CountIn(final, total) == CountIn(Bump(counters, total), total);
    InsertedAllShort(order, CountedKeys(op, funcName, outcome));
  }

  /** The second record_counter call of a counted outcome. */
  method CountOutcome(c: MetricsCollector, op: string, funcName: string, outcome: Outcome)
    requires c.Valid() && !outcome.Interrupted?
    modifies c
    ensures c.Valid()
    ensures var key := OutcomeKey(op, funcName, outcome);
      c.counters == Bump(old(c.counters), key) &&
      c.recorded == Pushed(old(c.recorded), key, MetricValue(CountIn(c.counters, key) as real, OutcomeLabels(funcName, outcome))) &&
      c.order == Inserted(old(c.order), key)
    ensures c.gauges == old(c.gauges) && c.performance == old(c.performance) && c.timings == old(c.timings)
  {
    if outcome.Returned? {
      FunctionKeyForm(op + "_requests_success", funcName);
      CountOne(c, op + "_requests_success", FunctionLabel(funcName), SuccessKey(op, funcName));
    } else {
      ErrorKeyForm(op + "_requests_error", funcName, outcome.errorType);
      CountOne(c, op + "_requests_error", ErrorLabels(funcName, outcome.errorType), ErrorKey(op, funcName, outcome.errorType));
    }
  }

  /** The counters of one tracked call: the request total, then the success
      counter or the error counter of the exception's type (neither for a
      BaseException outside Exception); each bumped counter's history gains
      its running total (CountedHistoriesPushed). */
  method CountCall(c: MetricsCollector, op: string, funcName: string, outcome: Outcome)
    requires c.Valid()
    modifies c
    ensures c.Valid()
    ensures c.counters == Tracked(old(c.counters), op, funcName, outcome)
    ensures c.recorded == CountedHistories(old(c.recorded), c.counters, op, funcName, outcome)
    ensures c.order == InsertedAll(old(c.order), CountedKeys(op, funcName, outcome))
    ensures c.gauges == old(c.gauges) && c.performance == old(c.performance) && c.timings == old(c.timings)
  {
    var total := TotalKey(op, funcName);
    ghost var counters, recorded, order := c.counters, c.recorded, c.order;
    FunctionKeyForm(op + "_requests_total", funcName);
    CountOne(c, op + "_requests_total", FunctionLabel(funcName), total);
    if outcome.Interrupted? {
      InsertedAllShort(order, CountedKeys(op, funcName, outcome));
    } else {
      CountOutcome(c, op, funcName, outcome);
      OutcomeSteps(counters, recorded, order, op, funcName, outcome);
    }
  }

  /** The wrapper of track_performance around one call: the request total
      and then the success or error counter are bumped (Tracked), each with
      its running total pushed to its history (CountedHistories); the
      duration joins the histogram; and the operation's statistics take
      it, whichever way the call ended, an uncounted BaseException
      included. */
  method TrackPerformance(c: MetricsCollector, op: string, funcName: string, outcome: Outcome, duration: real)
    requires c.Valid()
    modifies c, if op in c.performance then {c.performance[op]} else {}
    ensures c.Valid()
    ensures c.counters == Tracked(old(c.counters), op, funcName, outcome)
    ensures c.recorded ==
      Pushed(CountedHistories(old(c.recorded), c.counters, op, funcName, outcome),
             DurationKey(op, funcName), MetricValue(duration, FunctionLabel(funcName)))
    ensures c.order == Inserted(InsertedAll(old(c.order), CountedKeys(op, funcName, outcome)), DurationKey(op, funcName))
    ensures c.timings == old(c.timings)[op := old(c.Timings(op)) + [duration]]
    ensures c.gauges == old(c.gauges)
  {
    CountCall(c, op, funcName, outcome);
    FunctionKeyForm(op + "_duration_seconds", funcName);
    c.RecordHistogram(op + "_duration_seconds", duration, FunctionLabel(funcName));
    c.RecordPerformance(op, duration);
  }

  /** One tracked call on a fresh collector is enough to make
      get_all_metrics raise IndexError: the request total, the first key
      recorded, holds a single value. */
  method OneTrackedCallRaises(maxHistory: nat, op: string, funcName: string, outcome: Outcome, duration: real)
    returns (r: Result<AllMetrics, string>)
    requires maxHistory >= 1 && Encodable(op + "_requests_total", FunctionLabel(funcName))
    ensures r == Err("IndexError")
  {
    var c := new MetricsCollector(maxHistory);
    TrackPerformance(c, op, funcName, outcome, duration);
    var total := TotalKey(op, funcName);
    FreshTrackedTotal(c.counters, op, funcName, outcome, duration);
    FunctionKeyForm(op + "_requests_total", funcName);
    RebuiltKeyOfMakeKey(op + "_requests_total", FunctionLabel(funcName));
    assert c.order[0] == total;
    assert |c.metrics[total]| == 1;
    assert KeyStats(c.metrics, total) == Err("IndexError");
    HistogramsRaise(c.metrics, c.order);
    r := c.GetAllMetrics();
  }

  /** On a fresh collector, one tracked call records the total first and
      gives it a single value. */
  lemma FreshTrackedTotal(counters: map<string, int>, op: string, funcName: string, outcome: Outcome, duration: real)
    ensures var total := TotalKey(op, funcName);
      var recorded := Pushed(CountedHistories(map[], counters, op, funcName, outcome),
                             DurationKey(op, funcName), MetricValue(duration, FunctionLabel(funcName)));
      var order := Inserted(InsertedAll([], CountedKeys(op, funcName, outcome)), DurationKey(op, funcName));
      total in recorded && |recorded[total]| == 1 && |order| > 0 && order[0] == total
  {
    TrackedKeysDiffer(op, funcName, if outcome.Raised? then outcome.errorType else "");
    CountedHistoriesPushed(map[], counters, op, funcName, outcome);
    var keys := CountedKeys(op, funcName, outcome);
    assert InsertedAll([], keys)[0] == TotalKey(op, funcName) by {
      assert keys[0] == TotalKey(op, funcName) && Inserted([], keys[0]) == [keys[0]];
      assert InsertedAll([], keys) == InsertedAll([TotalKey(op, funcName)], keys[1..]);
      InsertedAllPrefix([TotalKey(op, funcName)], keys[1..]);
    }
  }

  /** `InsertedAll` of one or two keys. */
  lemma InsertedAllShort(order: seq<string>, keys: seq<string>)
    requires 1 <= |keys| <= 2
    ensures |keys| == 1 ==> InsertedAll(order, keys) == Inserted(order, keys[0])
    ensures |keys| == 2 ==> InsertedAll(order, keys) == Inserted(Inserted(order, keys[0]), keys[1])
  {
    var once := Inserted(order, keys[0]);
    assert InsertedAll(order, keys) == InsertedAll(once, keys[1..]);
    if |keys| == 2 {
      assert InsertedAll(once, keys[1..]) == InsertedAll(Inserted(once, keys[1]), keys[2..]);
    }
  }

  /** Inserting keeps what was already listed in place. */
  lemma {:induction false} InsertedAllPrefix(order: seq<string>, keys: seq<string>)
    ensures |order| <= |InsertedAll(order, keys)| && InsertedAll(order, keys)[..|order|] == order
    decreases |keys|
  {
    if keys != [] {
      InsertedAllPrefix(Inserted(order, keys[0]), keys[1..]);
    }
  }
}
