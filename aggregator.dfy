/**
 * The results aggregator: turns a list of evaluated test results into a
 * summary report with per-metric statistics, overall score and pass-rate
 * figures, response-time statistics and per-category counts.
 */
module Aggregator {
  import opened Values
  import opened Statistics

  /** `metric_scores`: for each metric name, in order of first appearance,
      the scores recorded under it. */
  type ScoreLists = seq<(string, seq<Value>)>

  /** `metric_scores.get(name, [])`. */
  function ListFor(lists: ScoreLists, name: string): seq<Value>
  {
    if |lists| == 0 then []
    else if lists[0].0 == name then lists[0].1
    else ListFor(lists[1..], name)
  }

  /** `metric_scores[name].append(score)`, creating the list on first sight of `name`. */
  function Append(lists: ScoreLists, name: string, score: Value): (r: ScoreLists)
    ensures |r| >= |lists|
    ensures forall i | 0 <= i < |lists| :: r[i].0 == lists[i].0
  {
    if |lists| == 0 then [(name, [score])]
    else if lists[0].0 == name then [(name, lists[0].1 + [score])] + lists[1..]
    else [lists[0]] + Append(lists[1..], name, score)
  }

  /** The inner loop: every `(metric_name, score)` of one result's metrics, in order. */
  function AppendAll(lists: ScoreLists, metrics: Fields): ScoreLists
  {
    if |metrics| == 0 then lists
    else
      var last := metrics[|metrics| - 1];
      Append(AppendAll(lists, metrics[..|metrics| - 1]), last.0, last.1)
  }

  /** `result.get('evaluation', {})`. */
  function EvaluationOf(result: Value): Result<Value>
  {
    DictGet(result, "evaluation", Obj([]))
  }

  /** `result.get('evaluation', {}).get('metrics', {}).items()`. */
  function MetricsOf(result: Value): Result<Fields>
  {
    var evaluation :- EvaluationOf(result);
    var metrics :- DictGet(evaluation, "metrics", Obj([]));
    if metrics.Obj? then Ok(metrics.fields) else Err(AttributeError)
  }

  /** `metric_scores` after the outer loop has visited `results`. */
  function CollectScores(results: seq<Value>): Result<ScoreLists>
  {
    if |results| == 0 then Ok([])
    else
      var lists :- CollectScores(results[..|results| - 1]);
      var metrics :- MetricsOf(results[|results| - 1]);
      Ok(AppendAll(lists, metrics))
  }

  /** The values a dict holds under `name`, in order. */
  function Recorded(metrics: Fields, name: string): seq<Value>
  {
    if |metrics| == 0 then []
    else Recorded(metrics[..|metrics| - 1], name)
         + (if metrics[|metrics| - 1].0 == name then [metrics[|metrics| - 1].1] else [])
  }

  /** Reference definition: the scores the results record under `name`, result by result. */
  function RecordedIn(results: seq<Value>, name: string): seq<Value>
  {
    if |results| == 0 then []
    else
      RecordedIn(results[..|results| - 1], name)
      + match MetricsOf(results[|results| - 1])
        case Ok(metrics) => Recorded(metrics, name)
        case Err(_) => []
  }

  /** The statistics reported for one metric. */
  datatype MetricStats = MetricStats(mean: real, median: real, min: real, max: real, stdDev: real)

  /** The numeric values of a list, or TypeError when one is not a number. */
  function Numbers(vs: seq<Value>): (r: Result<seq<real>>)
    ensures r.Ok? ==> |r.value| == |vs|
    ensures r.Ok? ==> forall i | 0 <= i < |vs| :: AsReal(vs[i]) == Some(r.value[i])
    ensures r.Err? ==> r.error == TypeError
  {
    if |vs| == 0 then Ok([])
    else
      var earlier :- Numbers(vs[..|vs| - 1]);
      match AsReal(vs[|vs| - 1])
      case Some(x) => Ok(earlier + [x])
      case None => Err(TypeError)
  }

  /** `metrics_stats[metric_name]` for one list of scores; `stdev` is
      `statistics.stdev`, only called with two or more scores. */
  function StatsOf(scores: seq<Value>, stdev: seq<real> -> real): (r: Result<MetricStats>)
    ensures r.Ok? <==> Numbers(scores).Ok? && |scores| > 0
    ensures r.Ok? ==> Ordered(r.value)
    ensures r.Ok? && |scores| == 1 ==> r.value.stdDev == 0.0
  {
    var xs :- Numbers(scores);
    if |xs| == 0 then Err(StatisticsError)
    else
      MeanBetweenMinAndMax(xs);
      MedianBetweenMinAndMax(xs);
      Ok(MetricStats(Mean(xs), Median(xs), MinOf(xs), MaxOf(xs), if |xs| > 1 then stdev(xs) else 0.0))
  }

  /** min <= mean <= max and min <= median <= max. */
  predicate Ordered(s: MetricStats)
  {
    s.min <= s.mean <= s.max && s.min <= s.median <= s.max
  }

  /** `metrics_stats` after the loop has visited `lists`. */
  function StatsFor(lists: ScoreLists, stdev: seq<real> -> real): (r: Result<seq<(string, MetricStats)>>)
    ensures r.Ok? ==> |r.value| == |lists|
    ensures r.Ok? ==> forall i | 0 <= i < |lists| :: r.value[i].0 == lists[i].0 && Ordered(r.value[i].1)
  {
    if |lists| == 0 then Ok([])
    else
      var shorter := lists[..|lists| - 1];
      var earlier :- StatsFor(shorter, stdev);
      var stats :- StatsOf(lists[|lists| - 1].1, stdev);
      assert forall i | 0 <= i < |shorter| :: shorter[i] == lists[i];
      Ok(earlier + [(lists[|lists| - 1].0, stats)])
  }

  /** `[result.get('evaluation', {}).get('overall_score', 0) for result in results]`. */
  function OverallScores(results: seq<Value>): (r: Result<seq<Value>>)
    ensures r.Ok? ==> |r.value| == |results|
  {
    if |results| == 0 then Ok([])
    else
      var earlier :- OverallScores(results[..|results| - 1]);
      var evaluation :- EvaluationOf(results[|results| - 1]);
      var score :- DictGet(evaluation, "overall_score", Num(0.0));
      Ok(earlier + [score])
  }

  /** Whether a result's evaluation says it passed. */
  function Passed(result: Value): Result<bool>
  {
    var evaluation :- EvaluationOf(result);
    var passed :- DictGet(evaluation, "passed", Bool(false));
    Ok(Truthy(passed))
  }

  /** `sum(1 for result in results if result.get('evaluation', {}).get('passed', False))`. */
  function PassCount(results: seq<Value>): (r: Result<nat>)
    ensures r.Ok? ==> r.value <= |results|
  {
    if |results| == 0 then Ok(0)
    else
      var earlier :- PassCount(results[..|results| - 1]);
      var passed :- Passed(results[|results| - 1]);
      Ok(earlier + if passed then 1 else 0)
  }

  /** `[result.get('response_time_ms', 0) for result in results]`. */
  function ResponseTimes(results: seq<Value>): (r: Result<seq<Value>>)
    ensures r.Ok? ==> |r.value| == |results|
  {
    if |results| == 0 then Ok([])
    else
      var earlier :- ResponseTimes(results[..|results| - 1]);
      var time :- DictGet(results[|results| - 1], "response_time_ms", Num(0.0));
      Ok(earlier + [time])
  }

  /** `[result['test_case'].get('category', 'unknown') for result in results]`. */
  function Categories(results: seq<Value>): (r: Result<seq<Value>>)
    ensures r.Ok? ==> |r.value| == |results|
  {
    if |results| == 0 then Ok([])
    else
      var earlier :- Categories(results[..|results| - 1]);
      var testCase :- Index(results[|results| - 1], "test_case");
      var category :- DictGet(testCase, "category", Str("unknown"));
      Ok(earlier + [category])
  }

  /** A category `Counter` can use as a key: lists and dicts are unhashable. */
  predicate Hashable(v: Value)
  {
    !v.List? && !v.Obj?
  }

  /** The value a hashable key stands for under Python's `==`: `True` is `1`
      and `1.0`, `False` is `0` and `0.0`, so a bool keys the same dict
      entry as the number it equals. */
  function KeyOf(v: Value): Value
  {
    if v.Bool? then Num(if v.b then 1.0 else 0.0) else v
  }

  /** Python's `==` on hashable keys. */
  predicate SameKey(a: Value, b: Value)
  {
    KeyOf(a) == KeyOf(b)
  }

  /** One more occurrence of `c` in the counts. An entry whose key equals `c`
      keeps the key it was first counted under; a new key goes last. */
  function CountOne(counts: seq<(Value, nat)>, c: Value): (r: seq<(Value, nat)>)
    ensures |r| >= |counts|
  {
    if |counts| == 0 then [(c, 1)]
    else if SameKey(counts[0].0, c) then [(counts[0].0, counts[0].1 + 1)] + counts[1..]
    else [counts[0]] + CountOne(counts[1..], c)
  }

  /** `Counter(categories)`. */
  function Count(categories: seq<Value>): Result<seq<(Value, nat)>>
  {
    if |categories| == 0 then Ok([])
    else
      var earlier :- Count(categories[..|categories| - 1]);
      var c := categories[|categories| - 1];
      if Hashable(c) then Ok(CountOne(earlier, c)) else Err(TypeError)
  }

  /** The count a `Counter` reports for `c` (0 when absent); the lookup uses
      Python's `==`, like the Counter's own. */
  function CountFor(counts: seq<(Value, nat)>, c: Value): nat
  {
    if |counts| == 0 then 0
    else if SameKey(counts[0].0, c) then counts[0].1
    else CountFor(counts[1..], c)
  }

  function TotalCount(counts: seq<(Value, nat)>): nat
  {
    if |counts| == 0 then 0 else counts[0].1 + TotalCount(counts[1..])
  }

  datatype TimeStats = TimeStats(meanMs: real, medianMs: real, minMs: real, maxMs: real)

  datatype Overall = Overall(meanScore: real, medianScore: real, passCount: nat, passRate: real,
                             responseTime: TimeStats)

  /** The report. `EmptyReport` is the fixed report for no results:
      `{total_tests: 0, metrics: {}, overall: {mean_score: 0, pass_rate: 0}}`. */
  datatype Report =
    | EmptyReport
    | Report(totalTests: nat, metrics: seq<(string, MetricStats)>, overall: Overall,
             categories: seq<(Value, nat)>)

  /** `Counter([result['test_case'].get('category', 'unknown') for result in results])`. */
  function CategoryCounts(results: seq<Value>): Result<seq<(Value, nat)>>
  {
    var categories :- Categories(results);
    Count(categories)
  }

  /** The 'overall' section from the overall scores, the pass count and the
      response times of `n` results. */
  function OverallOf(scores: seq<Value>, passCount: nat, n: nat, times: seq<Value>): Result<Overall>
    requires |scores| == |times| == n > 0
  {
    var xs :- Numbers(scores);
    var ms :- Numbers(times);
    Ok(Overall(Mean(xs), Median(xs), passCount, Ratio(passCount, n),
               TimeStats(Mean(ms), Median(ms), MinOf(ms), MaxOf(ms))))
  }

  /** `count / total`. */
  function Ratio(count: nat, total: nat): (r: real)
    requires 0 < total
    ensures count <= total ==> 0.0 <= r <= 1.0
  {
    if count <= total then RateBounds(count, total); count as real / total as real
    else count as real / total as real
  }

  /** `aggregate_results(evaluated_results)`. */
  function Aggregate(results: seq<Value>, stdev: seq<real> -> real): Result<Report>
  {
    if |results| == 0 then Ok(EmptyReport)
    else
      var lists :- CollectScores(results);
      var stats :- StatsFor(lists, stdev);
      var overallScores :- OverallScores(results);
      var passCount :- PassCount(results);
      var times :- ResponseTimes(results);
      var counts :- CategoryCounts(results);
      var overall :- OverallOf(overallScores, passCount, |results|, times);
      Ok(Report(|results|, stats, overall, counts))
  }

  class ResultsAggregator {
    const config: Fields

    constructor (config: Fields)
      ensures this.config == config
    {
      this.config := config;
    }

    /** `aggregate_results(evaluated_results)`; the input list is a value, so
        the caller's list cannot change. */
    method AggregateResults(results: seq<Value>, stdev: seq<real> -> real) returns (r: Result<Report>)
      ensures r == Aggregate(results, stdev)
    {
      if |results| == 0 {
        return Ok(EmptyReport);
      }
      var lists := CollectMetricScores(results);
      if lists.Err? {
        return Err(lists.error);
      }
      var stats := ComputeStats(lists.value, stdev);
      if stats.Err? {
        return Err(stats.error);
      }
      var overallScores :- OverallScores(results);
      var passCount :- PassCount(results);
      var times :- ResponseTimes(results);
      var counts :- CategoryCounts(results);
      var overall :- OverallOf(overallScores, passCount, |results|, times);
      r := Ok(Report(|results|, stats.value, overall, counts));
    }

    /** The nested loop that fills `metric_scores`. */
    method CollectMetricScores(results: seq<Value>) returns (r: Result<ScoreLists>)
      ensures r == CollectScores(results)
    {
      var lists: ScoreLists := [];
      var i := 0;
      while i < |results|
        invariant 0 <= i <= |results|
        invariant CollectScores(results[..i]) == Ok(lists)
      {
        assert results[..i + 1][..i] == results[..i];
        var metrics := MetricsOf(results[i]);
        if metrics.Err? {
          CollectErrorPersists(results, i + 1);
          return Err(metrics.error);
        }
        var j := 0;
        var current := lists;
        while j < |metrics.value|
          invariant 0 <= j <= |metrics.value|
          invariant current == AppendAll(lists, metrics.value[..j])
        {
          assert metrics.value[..j + 1][..j] == metrics.value[..j];
          current := Append(current, metrics.value[j].0, metrics.value[j].1);
          j := j + 1;
        }
        assert metrics.value[..j] == metrics.value;
        lists := current;
        i := i + 1;
      }
      assert results[..i] == results;
      r := Ok(lists);
    }

    /** The loop that fills `metrics_stats`. */
    method ComputeStats(lists: ScoreLists, stdev: seq<real> -> real) returns (r: Result<seq<(string, MetricStats)>>)
      ensures r == StatsFor(lists, stdev)
    {
      var stats: seq<(string, MetricStats)> := [];
      var i := 0;
      while i < |lists|
        invariant 0 <= i <= |lists|
        invariant StatsFor(lists[..i], stdev) == Ok(stats)
      {
        assert lists[..i + 1][..i] == lists[..i];
        var s := StatsOf(lists[i].1, stdev);
        if s.Err? {
          StatsErrorPersists(lists, i + 1, stdev);
          return Err(s.error);
        }
        stats := stats + [(lists[i].0, s.value)];
        i := i + 1;
      }
      assert lists[..i] == lists;
      r := Ok(stats);
    }
  }

  lemma {:induction false} CollectErrorPersists(results: seq<Value>, k: nat)
    requires k <= |results|
    requires CollectScores(results[..k]).Err?
    ensures CollectScores(results) == CollectScores(results[..k])
    decreases |results|
  {
    if k < |results| {
      var shorter := results[..|results| - 1];
      assert shorter[..k] == results[..k];
      CollectErrorPersists(shorter, k);
    } else {
      assert results[..k] == results;
    }
  }

  lemma {:induction false} StatsErrorPersists(lists: ScoreLists, k: nat, stdev: seq<real> -> real)
    requires k <= |lists|
    requires StatsFor(lists[..k], stdev).Err?
    ensures StatsFor(lists, stdev) == StatsFor(lists[..k], stdev)
    decreases |lists|
  {
    if k < |lists| {
      var shorter := lists[..|lists| - 1];
      assert shorter[..k] == lists[..k];
      StatsErrorPersists(shorter, k, stdev);
    } else {
      assert lists[..k] == lists;
    }
  }

  /** Appending a score extends exactly the list of its own metric. */
  lemma {:induction false} AppendListFor(lists: ScoreLists, name: string, score: Value, k: string)
    ensures ListFor(Append(lists, name, score), k) == ListFor(lists, k) + (if k == name then [score] else [])
  {
    if |lists| > 0 && lists[0].0 != name {
      AppendListFor(lists[1..], name, score, k);
    }
  }

  /** The inner loop appends, to each metric's list, that metric's scores in this result. */
  lemma {:induction false} AppendAllListFor(lists: ScoreLists, metrics: Fields, k: string)
    ensures ListFor(AppendAll(lists, metrics), k) == ListFor(lists, k) + Recorded(metrics, k)
  {
    if |metrics| > 0 {
      var shorter := metrics[..|metrics| - 1];
      var last := metrics[|metrics| - 1];
      AppendAllListFor(lists, shorter, k);
      AppendListFor(AppendAll(lists, shorter), last.0, last.1, k);
    }
  }

  /** Each metric's statistics use exactly the scores recorded under that
      name, in the order of the results. */
  lemma {:induction false} ScoresCollectedExactly(results: seq<Value>, k: string)
    requires CollectScores(results).Ok?
    ensures ListFor(CollectScores(results).value, k) == RecordedIn(results, k)
  {
    if |results| > 0 {
      var shorter := results[..|results| - 1];
      ScoresCollectedExactly(shorter, k);
      AppendAllListFor(CollectScores(shorter).value, MetricsOf(results[|results| - 1]).value, k);
    }
  }

  /** Every list of scores the loop builds is non-empty, so the statistics of
      a collected metric never fail for lack of data. */
  lemma {:induction false} CollectedListsNonEmpty(results: seq<Value>)
    requires CollectScores(results).Ok?
    ensures forall i | 0 <= i < |CollectScores(results).value| :: CollectScores(results).value[i].1 != []
  {
    if |results| > 0 {
      var shorter := results[..|results| - 1];
      CollectedListsNonEmpty(shorter);
      AppendAllNonEmpty(CollectScores(shorter).value, MetricsOf(results[|results| - 1]).value);
    }
  }

  lemma {:induction false} AppendAllNonEmpty(lists: ScoreLists, metrics: Fields)
    requires forall i | 0 <= i < |lists| :: lists[i].1 != []
    ensures forall i | 0 <= i < |AppendAll(lists, metrics)| :: AppendAll(lists, metrics)[i].1 != []
  {
    if |metrics| > 0 {
      var last := metrics[|metrics| - 1];
      AppendAllNonEmpty(lists, metrics[..|metrics| - 1]);
      AppendNonEmpty(AppendAll(lists, metrics[..|metrics| - 1]), last.0, last.1);
    }
  }

  lemma {:induction false} AppendNonEmpty(lists: ScoreLists, name: string, score: Value)
    requires forall i | 0 <= i < |lists| :: lists[i].1 != []
    ensures forall i | 0 <= i < |Append(lists, name, score)| :: Append(lists, name, score)[i].1 != []
  {
    if |lists| > 0 && lists[0].0 != name {
      AppendNonEmpty(lists[1..], name, score);
    }
  }

  /** Counting one more category adds one to its count and to the total. */
  lemma {:induction false} CountOneCounts(counts: seq<(Value, nat)>, c: Value, d: Value)
    ensures CountFor(CountOne(counts, c), d) == CountFor(counts, d) + (if SameKey(d, c) then 1 else 0)
    ensures TotalCount(CountOne(counts, c)) == TotalCount(counts) + 1
  {
    if |counts| > 0 && !SameKey(counts[0].0, c) {
      CountOneCounts(counts[1..], c, d);
    }
  }

  /** The keys of the counts, each as the value it stands for under `==`. */
  function KeySet(counts: seq<(Value, nat)>): set<Value>
  {
    if |counts| == 0 then {} else {KeyOf(counts[0].0)} + KeySet(counts[1..])
  }

  /** No two entries of the counts have keys Python considers equal. */
  predicate DistinctKeys(counts: seq<(Value, nat)>)
  {
    |counts| == 0 || (KeyOf(counts[0].0) !in KeySet(counts[1..]) && DistinctKeys(counts[1..]))
  }

  /** Counting `c` adds its key to the keys, and keeps them distinct. */
  lemma {:induction false} CountOneKeys(counts: seq<(Value, nat)>, c: Value)
    ensures KeySet(CountOne(counts, c)) == KeySet(counts) + {KeyOf(c)}
    ensures DistinctKeys(counts) ==> DistinctKeys(CountOne(counts, c))
  {
    if |counts| > 0 && !SameKey(counts[0].0, c) {
      CountOneKeys(counts[1..], c);
    }
  }

  /** How many of `categories` are equal to `d` under Python's `==`. */
  function Occurrences(categories: seq<Value>, d: Value): (n: nat)
    ensures n <= |categories|
  {
    if |categories| == 0 then 0
    else Occurrences(categories[..|categories| - 1], d)
         + (if SameKey(categories[|categories| - 1], d) then 1 else 0)
  }

  /** A string is equal only to itself, so its occurrences are its multiplicity. */
  lemma {:induction false} StringOccurrences(categories: seq<Value>, s: string)
    ensures Occurrences(categories, Str(s)) == multiset(categories)[Str(s)]
  {
    if |categories| > 0 {
      var shorter := categories[..|categories| - 1];
      StringOccurrences(shorter, s);
      assert categories == shorter + [categories[|categories| - 1]];
    }
  }

  /** `Counter` reports for each category the number of categories equal to
      it, holds no two equal keys, and its counts sum to the number of
      categories. */
  lemma {:induction false} CountIsMultiplicity(categories: seq<Value>, d: Value)
    requires Count(categories).Ok?
    ensures CountFor(Count(categories).value, d) == Occurrences(categories, d)
    ensures DistinctKeys(Count(categories).value)
    ensures TotalCount(Count(categories).value) == |categories|
  {
    if |categories| > 0 {
      var shorter := categories[..|categories| - 1];
      var c := categories[|categories| - 1];
      CountIsMultiplicity(shorter, d);
      CountOneCounts(Count(shorter).value, c, d);
      CountOneKeys(Count(shorter).value, c);
    }
  }

  /** `True` and `1.0` are one key: the Counter keeps the first one seen. */
  lemma TrueAndOneShareAKey()
    ensures Count([Bool(true), Num(1.0)]) == Ok([(Bool(true), 2)])
    ensures Count([Num(0.0), Bool(false), Str("0")]) == Ok([(Num(0.0), 2), (Str("0"), 1)])
  {
    assert [Bool(true), Num(1.0)][..1] == [Bool(true)];
    assert Count([Bool(true)]) == Ok([(Bool(true), 1)]) by {
      assert [Bool(true)][..0] == [];
    }
    assert SameKey(Bool(true), Num(1.0));
    assert CountOne([(Bool(true), 1)], Num(1.0)) == [(Bool(true), 2)];
    assert [Num(0.0), Bool(false), Str("0")][..2] == [Num(0.0), Bool(false)];
    assert [Num(0.0), Bool(false)][..1] == [Num(0.0)];
    assert Count([Num(0.0)]) == Ok([(Num(0.0), 1)]) by {
      assert [Num(0.0)][..0] == [];
    }
    assert SameKey(Num(0.0), Bool(false));
    assert CountOne([(Num(0.0), 1)], Bool(false)) == [(Num(0.0), 2)];
    assert Count([Num(0.0), Bool(false)]) == Ok([(Num(0.0), 2)]);
    assert !SameKey(Num(0.0), Str("0"));
    assert CountOne([(Num(0.0), 2)], Str("0")) == [(Num(0.0), 2), (Str("0"), 1)];
  }

  /** The report for no results is the fixed zero report. */
  lemma EmptyInputZeroReport(stdev: seq<real> -> real)
    ensures Aggregate([], stdev) == Ok(EmptyReport)
  {
  }

  /** The parts of a report that was produced. */
  lemma ReportParts(results: seq<Value>, stdev: seq<real> -> real)
    requires Aggregate(results, stdev).Ok? && |results| > 0
    ensures CategoryCounts(results).Ok? && OverallScores(results).Ok? && PassCount(results).Ok? && ResponseTimes(results).Ok?
    ensures OverallOf(OverallScores(results).value, PassCount(results).value, |results|, ResponseTimes(results).value).Ok?
    ensures Aggregate(results, stdev).value
         == Report(|results|, StatsFor(CollectScores(results).value, stdev).value,
                   OverallOf(OverallScores(results).value, PassCount(results).value, |results|, ResponseTimes(results).value).value,
                   CategoryCounts(results).value)
  {
  }

  /** total_tests is the number of results; the category counts sum to it,
      and a result whose test case has no category is counted under 'unknown'. */
  lemma CategoryCountsSumToTotal(results: seq<Value>, stdev: seq<real> -> real)
    requires Aggregate(results, stdev).Ok? && |results| > 0
    ensures Aggregate(results, stdev).value.totalTests == |results|
    ensures TotalCount(Aggregate(results, stdev).value.categories) == |results|
    ensures CountFor(Aggregate(results, stdev).value.categories, Str("unknown"))
         == multiset(Categories(results).value)[Str("unknown")]
  {
    ReportParts(results, stdev);
    CountIsMultiplicity(Categories(results).value, Str("unknown"));
    StringOccurrences(Categories(results).value, "unknown");
  }

  /** A result whose test case has no 'category' key contributes 'unknown'. */
  lemma MissingCategoryIsUnknown(results: seq<Value>, i: nat)
    requires Categories(results).Ok? && i < |results|
    requires results[i].Obj? && HasKey(results[i].fields, "test_case")
    requires Lookup(results[i].fields, "test_case").value.Obj?
    requires !HasKey(Lookup(results[i].fields, "test_case").value.fields, "category")
    ensures Categories(results).value[i] == Str("unknown")
  {
    CategoryAt(results, i);
  }

  lemma {:induction false} CategoryAt(results: seq<Value>, i: nat)
    requires Categories(results).Ok? && i < |results|
    ensures Index(results[i], "test_case").Ok? && Index(results[i], "test_case").value.Obj?
    ensures Categories(results).value[i] == DictGet(Index(results[i], "test_case").value, "category", Str("unknown")).value
  {
    if i < |results| - 1 {
      CategoryAt(results[..|results| - 1], i);
    }
  }

  /** pass_count counts the results that passed and pass_rate is its share
      of the results, within [0, 1]. */
  lemma PassRateInUnitInterval(results: seq<Value>, stdev: seq<real> -> real)
    requires Aggregate(results, stdev).Ok? && |results| > 0
    ensures Aggregate(results, stdev).value.overall.passCount == PassCount(results).value <= |results|
    ensures Aggregate(results, stdev).value.overall.passRate
         == PassCount(results).value as real / |results| as real
    ensures 0.0 <= Aggregate(results, stdev).value.overall.passRate <= 1.0
  {
    ReportParts(results, stdev);
    OverallPassFigures(OverallScores(results).value, PassCount(results).value, |results|, ResponseTimes(results).value);
  }

  lemma OverallPassFigures(scores: seq<Value>, passCount: nat, n: nat, times: seq<Value>)
    requires |scores| == |times| == n > 0
    requires OverallOf(scores, passCount, n, times).Ok?
    ensures OverallOf(scores, passCount, n, times).value.passCount == passCount
    ensures OverallOf(scores, passCount, n, times).value.passRate == Ratio(passCount, n)
  {
  }

  lemma RateBounds(p: nat, n: nat)
    requires 0 < n && p <= n
    ensures 0.0 <= p as real / n as real <= 1.0
  {
    DivideMonotone(p as real, n as real, n as real);
    DivideMonotone(0.0, p as real, n as real);
  }

  /** A missing overall_score counts as 0. */
  lemma {:induction false} MissingOverallScoreIsZero(results: seq<Value>, i: nat)
    requires OverallScores(results).Ok? && i < |results|
    requires EvaluationOf(results[i]).Ok? && EvaluationOf(results[i]).value.Obj?
    requires !HasKey(EvaluationOf(results[i]).value.fields, "overall_score")
    ensures OverallScores(results).value[i] == Num(0.0)
  {
    if i < |results| - 1 {
      MissingOverallScoreIsZero(results[..|results| - 1], i);
    }
  }

  /** A missing response_time_ms counts as 0. */
  lemma {:induction false} MissingResponseTimeIsZero(results: seq<Value>, i: nat)
    requires ResponseTimes(results).Ok? && i < |results|
    requires results[i].Obj? && !HasKey(results[i].fields, "response_time_ms")
    ensures ResponseTimes(results).value[i] == Num(0.0)
  {
    if i < |results| - 1 {
      MissingResponseTimeIsZero(results[..|results| - 1], i);
    }
  }

  /** A result recording `overall` and `passed` and nothing else. */
  function Scored(overall: real, passed: bool): Value
  {
    Obj([("test_case", Obj([])), ("evaluation", Obj([("overall_score", Num(overall)), ("passed", Bool(passed))]))])
  }

  /** The four results of `HalfPassingExample`. */
  function HalfPassing(): seq<Value>
  {
    [Scored(1.0, true), Scored(1.0, true), Scored(0.0, false), Scored(0.0, false)]
  }

  lemma HalfPassingColumns()
    ensures CollectScores(HalfPassing()).Ok? && CollectScores(HalfPassing()).value == []
    ensures PassCount(HalfPassing()).Ok? && PassCount(HalfPassing()).value == 2
    ensures OverallScores(HalfPassing()).Ok?
         && OverallScores(HalfPassing()).value == [Num(1.0), Num(1.0), Num(0.0), Num(0.0)]
    ensures ResponseTimes(HalfPassing()).Ok?
         && ResponseTimes(HalfPassing()).value == [Num(0.0), Num(0.0), Num(0.0), Num(0.0)]
    ensures Categories(HalfPassing()).Ok?
  {
    HalfPassingScores();
    HalfPassingPassCount();
    HalfPassingOverallScores();
    HalfPassingTimes();
    HalfPassingCategories();
  }

  lemma HalfPassingScores()
    ensures CollectScores(HalfPassing()).Ok? && CollectScores(HalfPassing()).value == []
  {
    var hi, lo := Scored(1.0, true), Scored(0.0, false);
    var r1 := [hi];
    var r2 := r1 + [hi];
    var r3 := r2 + [lo];
    var r4 := r3 + [lo];
    assert r1[..0] == [] && r2[..1] == r1 && r3[..2] == r2 && r4[..3] == r3;
    assert r4 == HalfPassing();
    assert EvaluationOf(hi) == Ok(Obj([("overall_score", Num(1.0)), ("passed", Bool(true))]));
    assert EvaluationOf(lo) == Ok(Obj([("overall_score", Num(0.0)), ("passed", Bool(false))]));
    assert CollectScores(r1).Ok? && CollectScores(r1).value == [];
    assert CollectScores(r2).Ok? && CollectScores(r2).value == [];
    assert CollectScores(r3).Ok? && CollectScores(r3).value == [];
  }

  lemma HalfPassingPassCount()
    ensures PassCount(HalfPassing()).Ok? && PassCount(HalfPassing()).value == 2
  {
    var hi, lo := Scored(1.0, true), Scored(0.0, false);
    var r1 := [hi];
    var r2 := r1 + [hi];
    var r3 := r2 + [lo];
    var r4 := r3 + [lo];
    assert r1[..0] == [] && r2[..1] == r1 && r3[..2] == r2 && r4[..3] == r3;
    assert r4 == HalfPassing();
    assert EvaluationOf(hi) == Ok(Obj([("overall_score", Num(1.0)), ("passed", Bool(true))]));
    assert EvaluationOf(lo) == Ok(Obj([("overall_score", Num(0.0)), ("passed", Bool(false))]));
    assert Passed(hi) == Ok(true) && Passed(lo) == Ok(false);
    assert PassCount(r1).Ok? && PassCount(r1).value == 1;
    assert PassCount(r2).Ok? && PassCount(r2).value == 2;
    assert PassCount(r3).Ok? && PassCount(r3).value == 2;
  }

  lemma HalfPassingOverallScores()
    ensures OverallScores(HalfPassing()).Ok?
         && OverallScores(HalfPassing()).value == [Num(1.0), Num(1.0), Num(0.0), Num(0.0)]
  {
    var hi, lo := Scored(1.0, true), Scored(0.0, false);
    var r1 := [hi];
    var r2 := r1 + [hi];
    var r3 := r2 + [lo];
    var r4 := r3 + [lo];
    assert r1[..0] == [] && r2[..1] == r1 && r3[..2] == r2 && r4[..3] == r3;
    assert r4 == HalfPassing();
    assert EvaluationOf(hi) == Ok(Obj([("overall_score", Num(1.0)), ("passed", Bool(true))]));
    assert EvaluationOf(lo) == Ok(Obj([("overall_score", Num(0.0)), ("passed", Bool(false))]));
    assert OverallScores(r1).Ok? && OverallScores(r1).value == [Num(1.0)];
    assert OverallScores(r2).Ok? && OverallScores(r2).value == [Num(1.0), Num(1.0)];
    assert OverallScores(r3).Ok? && OverallScores(r3).value == [Num(1.0), Num(1.0), Num(0.0)];
  }

  lemma HalfPassingTimes()
    ensures ResponseTimes(HalfPassing()).Ok?
         && ResponseTimes(HalfPassing()).value == [Num(0.0), Num(0.0), Num(0.0), Num(0.0)]
  {
    var hi, lo := Scored(1.0, true), Scored(0.0, false);
    var r1 := [hi];
    var r2 := r1 + [hi];
    var r3 := r2 + [lo];
    var r4 := r3 + [lo];
    assert r1[..0] == [] && r2[..1] == r1 && r3[..2] == r2 && r4[..3] == r3;
    assert r4 == HalfPassing();
    assert DictGet(hi, "response_time_ms", Num(0.0)) == Ok(Num(0.0));
    assert DictGet(lo, "response_time_ms", Num(0.0)) == Ok(Num(0.0));
    assert ResponseTimes(r1).Ok? && ResponseTimes(r1).value == [Num(0.0)];
    assert ResponseTimes(r2).Ok? && ResponseTimes(r2).value == [Num(0.0), Num(0.0)];
    assert ResponseTimes(r3).Ok? && ResponseTimes(r3).value == [Num(0.0), Num(0.0), Num(0.0)];
  }

  lemma HalfPassingCategories()
    ensures Categories(HalfPassing()).Ok?
  {
    var hi, lo := Scored(1.0, true), Scored(0.0, false);
    var r1 := [hi];
    var r2 := r1 + [hi];
    var r3 := r2 + [lo];
    var r4 := r3 + [lo];
    assert r1[..0] == [] && r2[..1] == r1 && r3[..2] == r2 && r4[..3] == r3;
    assert r4 == HalfPassing();
    assert Categories(r1).Ok? && Categories(r2).Ok? && Categories(r3).Ok?;
  }

  lemma HalfPassingCounts()
    ensures CategoryCounts(HalfPassing()).Ok?
  {
    HalfPassingCategories();
    var categories := Categories(HalfPassing()).value;
    assert forall i | 0 <= i < |categories| :: Hashable(categories[i]) by {
      forall i | 0 <= i < |categories| ensures Hashable(categories[i]) {
        CategoryAt(HalfPassing(), i);
      }
    }
    AllHashableCounts(categories);
  }

  lemma {:induction false} AllHashableCounts(categories: seq<Value>)
    requires forall i | 0 <= i < |categories| :: Hashable(categories[i])
    ensures Count(categories).Ok?
  {
    if |categories| > 0 {
      AllHashableCounts(categories[..|categories| - 1]);
    }
  }

  lemma HalfPassingOverall()
    ensures OverallOf([Num(1.0), Num(1.0), Num(0.0), Num(0.0)], 2, 4, [Num(0.0), Num(0.0), Num(0.0), Num(0.0)]).Ok?
    ensures OverallOf([Num(1.0), Num(1.0), Num(0.0), Num(0.0)], 2, 4, [Num(0.0), Num(0.0), Num(0.0), Num(0.0)]).value.meanScore == 0.5
    ensures OverallOf([Num(1.0), Num(1.0), Num(0.0), Num(0.0)], 2, 4, [Num(0.0), Num(0.0), Num(0.0), Num(0.0)]).value.passRate == 0.5
  {
    HalfPassingNumbers();
    HalfPassingTimeNumbers();
    var x1 := [1.0];
    var x2 := x1 + [1.0];
    var x3 := x2 + [0.0];
    var x4 := x3 + [0.0];
    assert x1[..0] == [] && x2[..1] == x1 && x3[..2] == x2 && x4[..3] == x3;
    assert Sum(x1) == 1.0 && Sum(x2) == 2.0 && Sum(x3) == 2.0 && Sum(x4) == 2.0;
    assert x4 == [1.0, 1.0, 0.0, 0.0];
  }

  lemma HalfPassingNumbers()
    ensures Numbers([Num(1.0), Num(1.0), Num(0.0), Num(0.0)]) == Ok([1.0, 1.0, 0.0, 0.0])
  {
    var s1 := [Num(1.0)];
    var s2 := s1 + [Num(1.0)];
    var s3 := s2 + [Num(0.0)];
    var s4 := s3 + [Num(0.0)];
    NumbersSnoc([], Num(1.0), 1.0);
    assert [] + [Num(1.0)] == s1;
    assert Numbers(s1).value == [1.0];
    NumbersSnoc(s1, Num(1.0), 1.0);
    assert Numbers(s2).value == [1.0, 1.0];
    NumbersSnoc(s2, Num(0.0), 0.0);
    assert Numbers(s3).value == [1.0, 1.0, 0.0];
    NumbersSnoc(s3, Num(0.0), 0.0);
    assert Numbers(s4).value == [1.0, 1.0, 0.0, 0.0];
    assert s4 == [Num(1.0), Num(1.0), Num(0.0), Num(0.0)];
  }

  lemma NumbersSnoc(vs: seq<Value>, v: Value, x: real)
    requires Numbers(vs).Ok? && AsReal(v) == Some(x)
    ensures Numbers(vs + [v]) == Ok(Numbers(vs).value + [x])
  {
    assert (vs + [v])[..|vs|] == vs;
  }

  lemma HalfPassingTimeNumbers()
    ensures Numbers([Num(0.0), Num(0.0), Num(0.0), Num(0.0)]).Ok?
  {
    var z1 := [Num(0.0)];
    var z2 := z1 + [Num(0.0)];
    var z3 := z2 + [Num(0.0)];
    var z4 := z3 + [Num(0.0)];
    assert z1[..0] == [] && z2[..1] == z1 && z3[..2] == z2 && z4[..3] == z3;
    assert Numbers(z1).Ok? && Numbers(z2).Ok? && Numbers(z3).Ok?;
    assert z4 == [Num(0.0), Num(0.0), Num(0.0), Num(0.0)];
  }

  /** Overall scores 1, 1, 0, 0 with the first two passing give mean score
      0.5 and pass rate 0.5. */
  lemma HalfPassingExample(stdev: seq<real> -> real)
    ensures Aggregate(HalfPassing(), stdev).Ok?
    ensures Aggregate(HalfPassing(), stdev).value.overall.meanScore == 0.5
    ensures Aggregate(HalfPassing(), stdev).value.overall.passRate == 0.5
  {
    HalfPassingColumns();
    HalfPassingCounts();
    HalfPassingOverall();
  }
}
