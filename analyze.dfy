/**
 * `analyze_results`, the CI gate: it counts the test records of every result
 * file, counts those whose metrics all passed, and compares the passing
 * percentage with a threshold.
 *
 * The files are given as the JSON values they parse to, in the order the
 * directory scan lists them; finding and reading them is not modelled.
 */
module Analyze {
  import opened Values

  /** What one metric entry needs to count as passed. */
  predicate MetricPassed(metricResult: Value)
  {
    metricResult.Obj? && Truthy(Get(metricResult.fields, "passed", Null))
  }

  /** The warning logged for a failed metric formats `result['test_case']['name']`
      and `metric_result['score']`, so evaluating it can raise. */
  function FailureLogged(result: Value, metricResult: Value): (r: Result<()>)
    ensures r.Ok? <==> Index(result, "test_case").Ok? && Index(Index(result, "test_case").value, "name").Ok?
                       && Index(metricResult, "score").Ok?
  {
    var testCase :- Index(result, "test_case");
    var _ :- Index(testCase, "name");
    var _ :- Index(metricResult, "score");
    Ok(())
  }

  /** `all_passed` after the loop over the first `|entries|` items of
      `result["metrics"]`. */
  function AllPassed(result: Value, entries: Fields): (r: Result<bool>)
    ensures r.Ok? ==> forall i | 0 <= i < |entries| :: entries[i].1.Obj? && HasKey(entries[i].1.fields, "passed")
    ensures r.Ok? ==> (r.value <==> forall i | 0 <= i < |entries| :: MetricPassed(entries[i].1))
    decreases |entries|
  {
    if |entries| == 0 then Ok(true)
    else
      var earlier :- AllPassed(result, entries[..|entries| - 1]);
      var metricResult := entries[|entries| - 1].1;
      var passed :- Index(metricResult, "passed");
      if Truthy(passed) then Ok(earlier)
      else
        var _ :- FailureLogged(result, metricResult);
        Ok(false)
  }

  /** Whether one test record counts as passed. */
  function TestPassed(result: Value): (r: Result<bool>)
  {
    var metrics :- Index(result, "metrics");
    if !metrics.Obj? then Err(AttributeError) else AllPassed(result, metrics.fields)
  }

  /** `total_test_cases` and `passed_test_cases`. */
  datatype Tally = Tally(total: nat, passed: nat)

  /** The counters after the loop over `results`, starting from `start`. */
  function TallyResults(results: seq<Value>, start: Tally): (r: Result<Tally>)
    ensures r.Ok? ==> r.value.total == start.total + |results|
    ensures r.Ok? ==> start.passed <= r.value.passed <= start.passed + |results|
    decreases |results|
  {
    if |results| == 0 then Ok(start)
    else
      var t :- TallyResults(results[..|results| - 1], start);
      var passed :- TestPassed(results[|results| - 1]);
      Ok(Tally(t.total + 1, if passed then t.passed + 1 else t.passed))
  }

  /** The counters after the loop over the result files. */
  function TallyFiles(files: seq<Value>): (r: Result<Tally>)
    ensures r.Ok? ==> r.value.passed <= r.value.total
    decreases |files|
  {
    if |files| == 0 then Ok(Tally(0, 0))
    else
      var t :- TallyFiles(files[..|files| - 1]);
      var results :- Iterate(files[|files| - 1]);
      TallyResults(results, t)
  }

  /** `analyze_results(results_dir, threshold)`. */
  function Verdict(files: seq<Value>, threshold: real): (r: Result<bool>)
    ensures |files| == 0 ==> r == Ok(false)
    ensures |files| > 0 ==> (r.Ok? <==> TallyFiles(files).Ok?)
    ensures |files| > 0 && r.Ok? && TallyFiles(files).value.total == 0 ==> r == Ok(false)
  {
    if |files| == 0 then Ok(false)
    else
      var t :- TallyFiles(files);
      if t.total == 0 then Ok(false)
      else Ok(t.passed as real / t.total as real * 100.0 >= threshold * 100.0)
  }

  /** The loop over one record's metrics. */
  method CheckTest(result: Value) returns (r: Result<bool>)
    ensures r == TestPassed(result)
  {
    var metrics :- Index(result, "metrics");
    if !metrics.Obj? {
      return Err(AttributeError);
    }
    var items := metrics.fields;
    var allPassed := true;
    var k := 0;
    while k < |items|
      invariant 0 <= k <= |items|
      invariant AllPassed(result, items[..k]) == Ok(allPassed)
    {
      assert items[..k + 1][..k] == items[..k];
      var passed := Index(items[k].1, "passed");
      if passed.Err? {
        AllPassedErrorPersists(result, items, k + 1);
        return Err(passed.error);
      }
      if !Truthy(passed.value) {
        var logged := FailureLogged(result, items[k].1);
        if logged.Err? {
          AllPassedErrorPersists(result, items, k + 1);
          return Err(logged.error);
        }
        allPassed := false;
      }
      k := k + 1;
    }
    assert items[..k] == items;
    r := Ok(allPassed);
  }

  /** The loop over the records of one result file. */
  method TallyFile(results: seq<Value>, start: Tally) returns (r: Result<Tally>)
    ensures r == TallyResults(results, start)
  {
    var total := start.total;
    var passed := start.passed;
    var j := 0;
    while j < |results|
      invariant 0 <= j <= |results|
      invariant TallyResults(results[..j], start) == Ok(Tally(total, passed))
    {
      assert results[..j + 1][..j] == results[..j];
      total := total + 1;
      var allPassed := CheckTest(results[j]);
      if allPassed.Err? {
        TallyResultsErrorPersists(results, start, j + 1);
        return Err(allPassed.error);
      }
      if allPassed.value {
        passed := passed + 1;
      }
      j := j + 1;
    }
    assert results[..j] == results;
    r := Ok(Tally(total, passed));
  }

  /** `analyze_results` over the parsed result files. */
  method AnalyzeResults(files: seq<Value>, threshold: real) returns (r: Result<bool>)
    ensures r == Verdict(files, threshold)
  {
    if |files| == 0 {
      return Ok(false);
    }
    var tally := Tally(0, 0);
    var i := 0;
    while i < |files|
      invariant 0 <= i <= |files|
      invariant TallyFiles(files[..i]) == Ok(tally)
    {
      assert files[..i + 1][..i] == files[..i];
      var results := Iterate(files[i]);
      if results.Err? {
        TallyFilesErrorPersists(files, i + 1);
        return Err(results.error);
      }
      var next := TallyFile(results.value, tally);
      if next.Err? {
        TallyFilesErrorPersists(files, i + 1);
        return Err(next.error);
      }
      tally := next.value;
      i := i + 1;
    }
    assert files[..i] == files;
    if tally.total == 0 {
      return Ok(false);
    }
    r := Ok(tally.passed as real / tally.total as real * 100.0 >= threshold * 100.0);
  }

  lemma {:induction false} AllPassedErrorPersists(result: Value, entries: Fields, k: nat)
    requires k <= |entries| && AllPassed(result, entries[..k]).Err?
    ensures AllPassed(result, entries) == AllPassed(result, entries[..k])
    decreases |entries| - k
  {
    if k < |entries| {
      assert entries[..k + 1][..k] == entries[..k];
      AllPassedErrorPersists(result, entries, k + 1);
    } else {
      assert entries[..k] == entries;
    }
  }

  lemma {:induction false} TallyResultsErrorPersists(results: seq<Value>, start: Tally, j: nat)
    requires j <= |results| && TallyResults(results[..j], start).Err?
    ensures TallyResults(results, start) == TallyResults(results[..j], start)
    decreases |results| - j
  {
    if j < |results| {
      assert results[..j + 1][..j] == results[..j];
      TallyResultsErrorPersists(results, start, j + 1);
    } else {
      assert results[..j] == results;
    }
  }

  lemma {:induction false} TallyFilesErrorPersists(files: seq<Value>, i: nat)
    requires i <= |files| && TallyFiles(files[..i]).Err?
    ensures TallyFiles(files) == TallyFiles(files[..i])
    decreases |files| - i
  {
    if i < |files| {
      assert files[..i + 1][..i] == files[..i];
      TallyFilesErrorPersists(files, i + 1);
    } else {
      assert files[..i] == files;
    }
  }

  /** A record whose metrics dict is empty counts as passed. */
  lemma EmptyMetricsPass(result: Value)
    requires result.Obj? && Lookup(result.fields, "metrics") == Some(Obj([]))
    ensures TestPassed(result) == Ok(true)
  {
  }

  /** A metric recorded with `passed: None` (one that has no threshold) fails
      its record, even when every other metric passed. */
  lemma NonePassedFails(result: Value, entries: Fields, i: nat)
    requires result.Obj? && Lookup(result.fields, "metrics") == Some(Obj(entries))
    requires i < |entries| && entries[i].1.Obj? && Lookup(entries[i].1.fields, "passed") == Some(Null)
    ensures TestPassed(result).Ok? ==> TestPassed(result) == Ok(false)
  {
  }

  /** The verdict compares the pass rate with the threshold. */
  lemma VerdictIsPassRate(files: seq<Value>, threshold: real)
    requires |files| > 0 && TallyFiles(files).Ok? && TallyFiles(files).value.total > 0
    ensures Verdict(files, threshold) ==
      Ok(TallyFiles(files).value.passed as real / TallyFiles(files).value.total as real >= threshold)
  {
  }

  /** A threshold of 0 passes any run with at least one record. */
  lemma ZeroThresholdPasses(files: seq<Value>)
    requires |files| > 0 && TallyFiles(files).Ok? && TallyFiles(files).value.total > 0
    ensures Verdict(files, 0.0) == Ok(true)
  {
    var t := TallyFiles(files).value;
    VerdictIsPassRate(files, 0.0);
    RateBounds(t.passed, t.total);
  }

  /** A threshold of 1 passes exactly when every record passed. */
  lemma FullThresholdNeedsEveryTest(files: seq<Value>)
    requires |files| > 0 && TallyFiles(files).Ok? && TallyFiles(files).value.total > 0
    ensures Verdict(files, 1.0) == Ok(TallyFiles(files).value.passed == TallyFiles(files).value.total)
  {
    var t := TallyFiles(files).value;
    VerdictIsPassRate(files, 1.0);
    RateBounds(t.passed, t.total);
  }

  lemma RateBounds(passed: nat, total: nat)
    requires 0 < total && passed <= total
    ensures 0.0 <= passed as real / total as real
    ensures passed as real / total as real >= 1.0 <==> passed == total
  {
    var p, t := passed as real, total as real;
    var rate := p / t;
    assert rate * t == p;
    if passed < total {
      ScaledBelow(rate, t);
    }
  }

  lemma ScaledBelow(rate: real, t: real)
    requires t > 0.0 && rate * t < t
    ensures rate < 1.0
  {
    assert (1.0 - rate) * t > 0.0;
  }
}
