/** Log metrics of the osde2e configuration: a named regular expression that is
    counted over a build log, and a pair of exclusive thresholds that decide
    whether the count passes.
 */
module LogMetrics {
  import opened Wrappers

  type byte = x: int | 0 <= x < 256

  /** One configured metric. The thresholds are exclusive bounds. */
  datatype LogMetric = LogMetric(name: string, regEx: string, highThreshold: int, lowThreshold: int)

  /** Values the configuration tags give the thresholds when none is configured. */
  const DefaultHighThreshold: int := 9999
  const DefaultLowThreshold: int := -1

  /** The zero value of the record (the Go literal `LogMetric{}`): empty strings and
      both thresholds 0. This, not the tag defaults, is what a failed lookup yields. */
  const ZeroMetric: LogMetric := LogMetric("", "", 0, 0)

  /** A metric whose thresholds were left to the tag defaults. */
  function WithTagDefaults(name: string, regEx: string): (m: LogMetric)
    ensures m.name == name && m.regEx == regEx
    ensures m.lowThreshold < m.highThreshold
  {
    LogMetric(name, regEx, DefaultHighThreshold, DefaultLowThreshold)
  }

  // ---------------------------------------------------------------------------
  // Lookup by name
  // ---------------------------------------------------------------------------

  /** `k` is the first position of `metrics` whose metric is called `name`. */
  ghost predicate IsFirstMatch(metrics: seq<LogMetric>, name: string, k: int) {
    && 0 <= k < |metrics|
    && metrics[k].name == name
    && forall i :: 0 <= i < k ==> metrics[i].name != name
  }

  /** No metric of `metrics` is called `name`. */
  ghost predicate Absent(metrics: seq<LogMetric>, name: string) {
    forall i :: 0 <= i < |metrics| ==> metrics[i].name != name
  }

  /** The scan of the lookup loop from position `k` on: the first position at or
      after `k` whose metric is called `name`, or None when the scan runs off the end. */
  function FindFrom(metrics: seq<LogMetric>, name: string, k: nat): (r: Option<nat>)
    requires k <= |metrics|
    ensures r.Some? ==> k <= r.value < |metrics| && metrics[r.value].name == name
    ensures r.Some? ==> forall i :: k <= i < r.value ==> metrics[i].name != name
    ensures r.None? <==> forall i :: k <= i < |metrics| ==> metrics[i].name != name
    decreases |metrics| - k
  {
    if k == |metrics| then None
    else if name == metrics[k].name then Some(k)
    else FindFrom(metrics, name, k + 1)
  }

  /** The first metric called `name`, or the zero metric when there is none.
      The lookup never fails and, being a function, leaves `metrics` as it was. */
  function GetMetricByName(metrics: seq<LogMetric>, name: string): (m: LogMetric)
    ensures forall k :: IsFirstMatch(metrics, name, k) ==> m == metrics[k]
    ensures Absent(metrics, name) ==> m == ZeroMetric
    ensures !Absent(metrics, name) ==> m.name == name && m in metrics
  {
    match FindFrom(metrics, name, 0)
    case Some(k) =>
      assert IsFirstMatch(metrics, name, k);
      FirstMatchUnique(metrics, name, k);
      metrics[k]
    case None => ZeroMetric
  }

  /** There is at most one first match. */
  lemma FirstMatchUnique(metrics: seq<LogMetric>, name: string, k: int)
    requires IsFirstMatch(metrics, name, k)
    ensures forall j :: IsFirstMatch(metrics, name, j) ==> j == k
  {
  }

  /** Metrics placed after the first match cannot change the lookup's answer. */
  lemma {:induction false} LookupIgnoresSuffix(metrics: seq<LogMetric>, rest: seq<LogMetric>, name: string)
    requires !Absent(metrics, name)
    ensures GetMetricByName(metrics + rest, name) == GetMetricByName(metrics, name)
  {
    var i :| 0 <= i < |metrics| && metrics[i].name == name;
    FirstMatchExists(metrics, name, i);
    var k :| 0 <= k <= i && IsFirstMatch(metrics, name, k);
    assert IsFirstMatch(metrics + rest, name, k) by {
      forall j | 0 <= j < k ensures (metrics + rest)[j].name != name {
        assert (metrics + rest)[j] == metrics[j];
      }
    }
  }

  /** A first match exists at or before any position holding `name`. */
  lemma {:induction false} FirstMatchExists(metrics: seq<LogMetric>, name: string, i: nat)
    requires i < |metrics| && metrics[i].name == name
    ensures exists k :: 0 <= k <= i && IsFirstMatch(metrics, name, k)
    decreases i
  {
    if forall j :: 0 <= j < i ==> metrics[j].name != name {
      assert IsFirstMatch(metrics, name, i);
    } else {
      var j :| 0 <= j < i && metrics[j].name == name;
      FirstMatchExists(metrics, name, j);
    }
  }

  /** A metric put in front of the collection shadows every later one of the same name. */
  lemma LookupFront(m: LogMetric, metrics: seq<LogMetric>)
    ensures GetMetricByName([m] + metrics, m.name) == m
  {
  }

  // ---------------------------------------------------------------------------
  // Threshold check
  // ---------------------------------------------------------------------------

  /** Whether `value` lies strictly between the two thresholds. Both bounds are
      exclusive, so a threshold value itself fails, and a value can pass only when
      the thresholds are at least two apart. */
  predicate IsPassing(metric: LogMetric, value: int)
    ensures value == metric.lowThreshold || value == metric.highThreshold ==> !IsPassing(metric, value)
    ensures IsPassing(metric, value) ==> metric.lowThreshold + 1 < metric.highThreshold
  {
    metric.highThreshold > value && metric.lowThreshold < value
  }

  /** The values that pass, as a set. The explicit bounds are there so that
      Dafny can see the set is finite. */
  ghost function PassingSet(metric: LogMetric): set<int> {
    set v | metric.lowThreshold < v < metric.highThreshold && IsPassing(metric, v)
  }

  /** Both thresholds themselves fail: the bounds are exclusive. */
  lemma BoundsFail(metric: LogMetric)
    ensures !IsPassing(metric, metric.lowThreshold)
    ensures !IsPassing(metric, metric.highThreshold)
  {
  }

  /** The passing values form an interval. */
  lemma PassingIsInterval(metric: LogMetric, a: int, b: int, c: int)
    requires IsPassing(metric, a) && IsPassing(metric, c) && a <= b <= c
    ensures IsPassing(metric, b)
  {
  }

  /** Every value at or above the high threshold fails, and so does every value
      at or below the low threshold. */
  lemma FailingOutsideBounds(metric: LogMetric, v: int)
    ensures metric.highThreshold <= v ==> !IsPassing(metric, v)
    ensures v <= metric.lowThreshold ==> !IsPassing(metric, v)
  {
  }

  /** A passing value exists exactly when the thresholds are at least two apart. */
  lemma NarrowThresholdsPassNothing(metric: LogMetric)
    ensures (exists v :: IsPassing(metric, v)) <==> metric.highThreshold > metric.lowThreshold + 1
  {
    if metric.highThreshold > metric.lowThreshold + 1 {
      assert IsPassing(metric, metric.lowThreshold + 1);
    }
  }

  /** The zero metric returned by a failed lookup fails every value. */
  lemma ZeroMetricFailsEverything(v: int)
    ensures !IsPassing(ZeroMetric, v)
  {
  }

  /** A lookup of a name no metric carries yields a metric that fails every value. */
  lemma AbsentNameNeverPasses(metrics: seq<LogMetric>, name: string, v: int)
    requires Absent(metrics, name)
    ensures !IsPassing(GetMetricByName(metrics, name), v)
  {
  }

  /** With the tag defaults exactly the values 0 through 9998 pass. */
  lemma TagDefaultsPass(name: string, regEx: string, v: int)
    ensures IsPassing(WithTagDefaults(name, regEx), v) <==> 0 <= v <= 9998
  {
  }

  /** The number of passing values is the width of the open interval. */
  lemma {:induction false} PassingSetSize(metric: LogMetric)
    ensures |PassingSet(metric)| ==
      if metric.highThreshold > metric.lowThreshold then metric.highThreshold - metric.lowThreshold - 1 else 0
    decreases metric.highThreshold - metric.lowThreshold
  {
    if metric.highThreshold <= metric.lowThreshold + 1 {
      assert PassingSet(metric) == {};
    } else {
      var narrower := metric.(highThreshold := metric.highThreshold - 1);
      assert PassingSet(metric) == PassingSet(narrower) + {metric.highThreshold - 1};
      PassingSetSize(narrower);
    }
  }

  // ---------------------------------------------------------------------------
  // Match counting
  // ---------------------------------------------------------------------------

  /** One match of a pattern in the data: the half-open byte range [start, end). */
  datatype Span = Span(start: nat, end: nat)

  /** The regular-expression engine's "find all" (pattern, data) -> matches. It is a
      parameter of the model: the engine is not part of it. */
  type FindAll = (string, seq<byte>) -> seq<Span>

  /** What the engine's find-all promises about its result: every match lies within
      the data, matches are reported left to right without overlapping, and each
      starts strictly after the previous one (an empty match is never reported at
      the position where the previous match ended). */
  ghost predicate WellFormedMatches(data: seq<byte>, spans: seq<Span>) {
    && (forall i :: 0 <= i < |spans| ==> spans[i].start <= spans[i].end <= |data|)
    && (forall i :: 0 <= i < |spans| - 1 ==>
          spans[i].end <= spans[i + 1].start && spans[i].start < spans[i + 1].start)
  }

  /** The number of matches of the metric's pattern in `data`: the length of the
      list the engine's find-all returns. Whenever that list is well formed, the
      count is at most one more than the data's length. */
  function HasMatches(metric: LogMetric, data: seq<byte>, findAll: FindAll): (n: nat)
    ensures WellFormedMatches(data, findAll(metric.regEx, data)) ==> n <= |data| + 1
  {
    MatchCountBound(data, findAll(metric.regEx, data));
    |findAll(metric.regEx, data)|
  }

  /** A well-formed match list holds at most one more match than the data has bytes. */
  lemma MatchCountBound(data: seq<byte>, spans: seq<Span>)
    ensures WellFormedMatches(data, spans) ==> |spans| <= |data| + 1
  {
    if WellFormedMatches(data, spans) && |spans| > 0 {
      StartsGrow(spans, |spans| - 1);
    }
  }

  /** In a well-formed match list the i-th match starts at position i or later. */
  lemma {:induction false} StartsGrow(spans: seq<Span>, i: nat)
    requires i < |spans|
    requires forall j :: 0 <= j < |spans| - 1 ==> spans[j].start < spans[j + 1].start
    ensures spans[i].start >= i
  {
    if i > 0 {
      StartsGrow(spans, i - 1);
    }
  }

  /** The count reads only the pattern: the name and the thresholds do not affect it. */
  lemma HasMatchesReadsOnlyPattern(m1: LogMetric, m2: LogMetric, data: seq<byte>, findAll: FindAll)
    requires m1.regEx == m2.regEx
    ensures HasMatches(m1, data, findAll) == HasMatches(m2, data, findAll)
  {
  }
}
