/**
 * `MetricFactory`: a string-tagged dispatch from a metric type name and its
 * keyword arguments to a metric description, and the batch form that pops
 * `type` out of each caller-owned configuration dict before dispatching.
 *
 * The metrics themselves (deepeval classes) are modelled as tagged values
 * carrying the arguments they were built with.
 */
module MetricFactory {
  import opened Values

  /** The six built-in deepeval metrics the factory knows by name. */
  datatype BuiltinKind =
    | AnswerRelevancy
    | Faithfulness
    | ContextualRelevancy
    | ContextualRecall
    | ContextualPrecision
    | ToolCorrectness
  {
    function Name(): string
    {
      match this
      case AnswerRelevancy => "answer_relevancy"
      case Faithfulness => "faithfulness"
      case ContextualRelevancy => "contextual_relevancy"
      case ContextualRecall => "contextual_recall"
      case ContextualPrecision => "contextual_precision"
      case ToolCorrectness => "tool_correctness"
    }
  }

  /** A created metric: a built-in one with its threshold, or a `GEval`
      criteria metric with its name, criteria, evaluation parameters and
      threshold. Each argument is whatever value the caller passed. */
  datatype Metric =
    | Builtin(kind: BuiltinKind, threshold: Value)
    | CriteriaMetric(name: Value, criteria: Value, evaluationParams: Value, threshold: Value)

  const DefaultThreshold: Value := Num(0.5)
  const DefaultCustomName: Value := Str("Custom Metric")
  const DefaultCriteria: Value := Str("Determine if the 'actual output' is correct.")
  /** `[LLMTestCaseParams.ACTUAL_OUTPUT, LLMTestCaseParams.EXPECTED_OUTPUT]`,
      each enumeration member written as its value. */
  const DefaultEvaluationParams: Value := List([Str("actual_output"), Str("expected_output")])

  /** The built-in kind a type name selects, tried in the order of the `elif` chain. */
  function BuiltinNamed(metricType: Value): (r: Option<BuiltinKind>)
    ensures r.Some? ==> metricType == Str(r.value.Name())
  {
    if metricType == Str("answer_relevancy") then Some(AnswerRelevancy)
    else if metricType == Str("faithfulness") then Some(Faithfulness)
    else if metricType == Str("contextual_relevancy") then Some(ContextualRelevancy)
    else if metricType == Str("contextual_recall") then Some(ContextualRecall)
    else if metricType == Str("contextual_precision") then Some(ContextualPrecision)
    else if metricType == Str("tool_correctness") then Some(ToolCorrectness)
    else None
  }

  /** `MetricFactory.create_metric(metric_type, **kwargs)`. */
  function CreateMetric(metricType: Value, kwargs: Fields): (r: Result<Metric>)
    ensures r.Ok? <==> BuiltinNamed(metricType).Some? || metricType == Str("custom")
    ensures r.Err? ==> r.error == UnknownMetricType(metricType) && IsValueError(r.error)
    ensures r.Ok? ==> r.value.threshold == Get(kwargs, "threshold", DefaultThreshold)
    ensures r.Ok? && r.value.Builtin? ==> metricType == Str(r.value.kind.Name())
    ensures r.Ok? ==> (r.value.CriteriaMetric? <==> metricType == Str("custom"))
  {
    var threshold := Get(kwargs, "threshold", DefaultThreshold);
    match BuiltinNamed(metricType)
    case Some(kind) => Ok(Builtin(kind, threshold))
    case None =>
      if metricType == Str("custom") then
        Ok(CriteriaMetric(Get(kwargs, "name", DefaultCustomName),
                          Get(kwargs, "criteria", DefaultCriteria),
                          Get(kwargs, "evaluation_params", DefaultEvaluationParams),
                          threshold))
      else Err(UnknownMetricType(metricType))
  }

  /** Every built-in kind is reached by its own name, and only by it. */
  lemma BuiltinNamesSelectTheirKind(kind: BuiltinKind, kwargs: Fields)
    ensures BuiltinNamed(Str(kind.Name())) == Some(kind)
    ensures CreateMetric(Str(kind.Name()), kwargs) == Ok(Builtin(kind, Get(kwargs, "threshold", DefaultThreshold)))
  {
  }

  /** Without a `threshold` argument the metric's threshold is 0.5. */
  lemma ThresholdDefaultsToHalf(metricType: Value, kwargs: Fields)
    requires !HasKey(kwargs, "threshold")
    requires CreateMetric(metricType, kwargs).Ok?
    ensures CreateMetric(metricType, kwargs).value.threshold == Num(0.5)
  {
  }

  /** `custom` without further arguments gets the default name, criteria and
      evaluation parameters. */
  lemma CustomDefaults(kwargs: Fields)
    requires !HasKey(kwargs, "name") && !HasKey(kwargs, "criteria") && !HasKey(kwargs, "evaluation_params")
    ensures CreateMetric(Str("custom"), kwargs) ==
      Ok(CriteriaMetric(Str("Custom Metric"), Str("Determine if the 'actual output' is correct."),
                        List([Str("actual_output"), Str("expected_output")]),
                        Get(kwargs, "threshold", Num(0.5))))
  {
  }

  /** The unit test's custom metric keeps the given name and threshold. */
  lemma CustomMetricExample()
    ensures var r := CreateMetric(Str("custom"), [("name", Str("Test Metric")), ("criteria", Str("Test criteria")), ("threshold", Num(0.6))]);
      r.Ok? && r.value.CriteriaMetric? && r.value.name == Str("Test Metric") && r.value.threshold == Num(0.6)
  {
    var kwargs: Fields := [("name", Str("Test Metric")), ("criteria", Str("Test criteria")), ("threshold", Num(0.6))];
    assert kwargs[1..][1..] == [("threshold", Num(0.6))];
    assert Lookup(kwargs, "threshold") == Some(Num(0.6));
  }

  /** An unknown name, or a type that is not a string, raises ValueError naming it. */
  lemma UnknownTypeRaises()
    ensures CreateMetric(Str("invalid_type"), []) == Err(UnknownMetricType(Str("invalid_type")))
    ensures CreateMetric(Num(1.0), []) == Err(UnknownMetricType(Num(1.0)))
  {
  }

  /** `cls.create_metric(metric_type, **config)`: a keyword that collides with
      one of the method's own parameters raises TypeError before the body runs. */
  function CreateMetricCall(metricType: Value, config: Fields): (r: Result<Metric>)
    ensures HasKey(config, "cls") || HasKey(config, "metric_type") ==> r == Err(TypeError)
    ensures !HasKey(config, "cls") && !HasKey(config, "metric_type") ==> r == CreateMetric(metricType, config)
  {
    if Lookup(config, "cls").Some? || Lookup(config, "metric_type").Some? then Err(TypeError)
    else CreateMetric(metricType, config)
  }

  /** One iteration on a config's fields: pop `type`, then create the metric. */
  function Step(config: Fields): (r: Result<Metric>)
    ensures !HasKey(config, "type") ==> r == Err(KeyError("type"))
  {
    match Lookup(config, "type")
    case None => Err(KeyError("type"))
    case Some(t) => CreateMetricCall(t, Remove(config, "type"))
  }

  /** A loop over configs that applies `step` to each and stops at the first
      error: the results in order, or that error. `create_metrics` is this
      loop with `Step`. */
  function CreateAll(configs: seq<Fields>, step: Fields -> Result<Metric>): (r: Result<seq<Metric>>)
    ensures r.Ok? ==> |r.value| == |configs|
  {
    if |configs| == 0 then Ok([])
    else
      var earlier :- CreateAll(configs[..|configs| - 1], step);
      var metric :- step(configs[|configs| - 1]);
      Ok(earlier + [metric])
  }

  /** No dict occurs twice among the configs. */
  predicate Distinct(configs: seq<Dict>)
  {
    forall j, k | 0 <= j < k < |configs| :: configs[j] != configs[k]
  }

  /** `MetricFactory.create_metrics(metric_configs)`: the outcome is that of
      the configs' original fields, and every config the loop reached (the
      one that failed included) has lost its `type`, while the others are
      unchanged. */
  method CreateMetrics(configs: seq<Dict>, ghost originals: seq<Fields>) returns (r: Result<seq<Metric>>)
    requires Distinct(configs)
    requires |originals| == |configs| && forall j | 0 <= j < |configs| :: originals[j] == configs[j].fields
    modifies configs
    ensures r == CreateAll(originals, Step)
    ensures forall j | 0 <= j < |configs| ::
      configs[j].fields == if j < Reached(originals, Step) then Remove(originals[j], "type") else originals[j]
  {
    var metrics: seq<Metric> := [];
    var i := 0;
    while i < |configs|
      invariant 0 <= i <= |configs|
      invariant CreateAll(originals[..i], Step) == Ok(metrics)
      invariant forall j | 0 <= j < i :: configs[j].fields == Remove(originals[j], "type")
      invariant forall j | i <= j < |configs| :: configs[j].fields == originals[j]
    {
      var metricType := PopTypeAt(configs, i);
      var metric := if metricType.Err? then Err(metricType.error)
                    else CreateMetricCall(metricType.value, configs[i].fields);
      assert metric == Step(originals[i]);
      CreateAllStep(originals, Step, i);
      if metric.Err? {
        if metricType.Err? {
          RemoveAbsent(originals[i], "type");
        }
        assert configs[i].fields == Remove(originals[i], "type");
        ErrorPersists(originals, Step, i + 1);
        ReachedAtFailure(originals, Step, i);
        assert forall j | 0 <= j < |configs| ::
          configs[j].fields == if j < i + 1 then Remove(originals[j], "type") else originals[j];
        return Err(metric.error);
      }
      metrics := metrics + [metric.value];
      i := i + 1;
    }
    assert originals[..i] == originals;
    return Ok(metrics);
  }

  /** `config.pop("type")` on the config at position i, seen from the list:
      only that config changes. */
  method PopTypeAt(configs: seq<Dict>, i: nat) returns (r: Result<Value>)
    requires Distinct(configs) && i < |configs|
    modifies configs
    ensures r.Ok? <==> HasKey(old(configs[i].fields), "type")
    ensures r.Ok? ==> Some(r.value) == Lookup(old(configs[i].fields), "type")
    ensures r.Err? ==> r.error == KeyError("type")
    ensures r.Ok? ==> configs[i].fields == Remove(old(configs[i].fields), "type")
    ensures r.Err? ==> configs[i].fields == old(configs[i].fields)
    ensures forall j | 0 <= j < |configs| && j != i :: configs[j].fields == old(configs[j].fields)
  {
    r := configs[i].Pop("type");
  }

  lemma {:induction false} RemoveAbsent(fields: Fields, key: string)
    requires Lookup(fields, key).None?
    ensures Remove(fields, key) == fields
  {
    if |fields| > 0 {
      RemoveAbsent(fields[1..], key);
    }
  }

  lemma {:induction false} ErrorPersists(configs: seq<Fields>, step: Fields -> Result<Metric>, k: nat)
    requires k <= |configs|
    requires CreateAll(configs[..k], step).Err?
    ensures CreateAll(configs, step) == CreateAll(configs[..k], step)
    decreases |configs| - k
  {
    if k < |configs| {
      assert configs[..k + 1][..k] == configs[..k];
      ErrorPersists(configs, step, k + 1);
    } else {
      assert configs[..k] == configs;
    }
  }

  lemma {:induction false} PrefixOk(configs: seq<Fields>, step: Fields -> Result<Metric>, j: nat)
    requires j <= |configs|
    requires CreateAll(configs, step).Ok?
    ensures CreateAll(configs[..j], step).Ok?
  {
    if j < |configs| {
      var init := configs[..|configs| - 1];
      PrefixOk(init, step, j);
      assert init[..j] == configs[..j];
    } else {
      assert configs[..j] == configs;
    }
  }

  /** One more iteration of the loop. */
  lemma CreateAllStep(configs: seq<Fields>, step: Fields -> Result<Metric>, i: nat)
    requires i < |configs| && CreateAll(configs[..i], step).Ok?
    ensures CreateAll(configs[..i + 1], step) ==
      match step(configs[i])
      case Ok(m) => Ok(CreateAll(configs[..i], step).value + [m])
      case Err(e) => Err(e)
  {
    assert configs[..i + 1][..i] == configs[..i];
  }

  /** How many configs the loop reaches: all of them, or those up to and
      including the first that fails. */
  function Reached(configs: seq<Fields>, step: Fields -> Result<Metric>): (n: nat)
    ensures n <= |configs|
    ensures CreateAll(configs, step).Ok? ==> n == |configs|
  {
    if |configs| == 0 then 0
    else if CreateAll(configs[..|configs| - 1], step).Err? then Reached(configs[..|configs| - 1], step)
    else |configs|
  }

  /** The loop reaches config j exactly when every config before it succeeded. */
  lemma {:induction false} ReachedIffEarlierOk(configs: seq<Fields>, step: Fields -> Result<Metric>, j: nat)
    requires j < |configs|
    ensures j < Reached(configs, step) <==> CreateAll(configs[..j], step).Ok?
  {
    var init := configs[..|configs| - 1];
    if j < |init| {
      assert init[..j] == configs[..j];
      if CreateAll(init, step).Err? {
        ReachedIffEarlierOk(init, step, j);
      } else {
        PrefixOk(init, step, j);
      }
    } else {
      assert init == configs[..j];
    }
  }

  /** When config i is the first to fail, the loop has reached i + 1 configs. */
  lemma {:induction false} ReachedAtFailure(configs: seq<Fields>, step: Fields -> Result<Metric>, i: nat)
    requires i < |configs|
    requires CreateAll(configs[..i], step).Ok? && CreateAll(configs[..i + 1], step).Err?
    ensures Reached(configs, step) == i + 1
  {
    var init := configs[..|configs| - 1];
    if i < |init| {
      assert init[..i] == configs[..i] && init[..i + 1] == configs[..i + 1];
      ErrorPersists(init, step, i + 1);
      ReachedAtFailure(init, step, i);
    } else {
      assert init == configs[..i];
    }
  }

  /** A successful run makes one metric per config, in order, each the
      step's result for that config (for `Step`: from the config's `type` and
      its remaining entries). */
  lemma {:induction false} OneMetricPerConfig(configs: seq<Fields>, step: Fields -> Result<Metric>)
    requires CreateAll(configs, step).Ok?
    ensures forall k | 0 <= k < |configs| :: step(configs[k]) == Ok(CreateAll(configs, step).value[k])
  {
    var n := |configs|;
    if n > 0 {
      var init := configs[..n - 1];
      PrefixOk(configs, step, n - 1);
      OneMetricPerConfig(init, step);
      CreateAllStep(configs, step, n - 1);
      assert configs[..n] == configs;
      var metrics := CreateAll(configs, step).value;
      forall k | 0 <= k < n ensures step(configs[k]) == Ok(metrics[k]) {
        if k < n - 1 {
          assert configs[k] == init[k];
          assert metrics[k] == CreateAll(init, step).value[k];
        }
      }
    }
  }
}
