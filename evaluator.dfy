/**
 * The response evaluator: applies the four metrics to one test result,
 * combines their scores into a weighted overall score and decides whether
 * the test passed.
 */
module Evaluator {
  import opened Values
  import opened MetricCommon
  import Safety
  import Relevance
  import Accuracy
  import Performance

  /** The four metrics, in the order the evaluator applies them. */
  datatype MetricKind = AccuracyMetric | RelevanceMetric | SafetyMetric | PerformanceMetric
  {
    function Name(): string
    {
      match this
      case AccuracyMetric => "accuracy"
      case RelevanceMetric => "relevance"
      case SafetyMetric => "safety"
      case PerformanceMetric => "performance"
    }
  }

  const Metrics: seq<MetricKind> := [AccuracyMetric, RelevanceMetric, SafetyMetric, PerformanceMetric]

  /** The collaborators the metrics call: BLEU, ROUGE, the embedding model
      and the regex engine. */
  datatype MetricEnv = MetricEnv(bleu: Accuracy.Bleu, rouge: Accuracy.Rouge,
                                 embedding: Relevance.Embedding, re: Safety.Regex)

  /** `config.get(name, {})`: the section handed to one metric's constructor. */
  function Section(config: Fields, kind: MetricKind): Value
  {
    Get(config, kind.Name(), Obj([]))
  }

  /** The relevance, safety and performance metrics call `.get` on their
      section in their constructors; the accuracy metric only stores it. */
  predicate ReadAtConstruction(kind: MetricKind)
  {
    kind != AccuracyMetric
  }

  /** A configuration `ResponseEvaluator(config)` accepts. */
  predicate Constructible(config: Fields)
  {
    && Section(config, RelevanceMetric).Obj?
    && Section(config, SafetyMetric).Obj?
    && !Safety.RulesPathRaises(Section(config, SafetyMetric).fields)
    && Section(config, PerformanceMetric).Obj?
  }

  type EvaluatorConfig = c: Fields | Constructible(c) witness []

  /** The outcome of `ResponseEvaluator(config)`: the metric constructors run
      in order, and the first whose section is not a dict (a YAML key with no
      value gives None) raises AttributeError at its `.get`; the safety
      metric also raises TypeError for a list or dict rules path. */
  function Construct(config: Fields): (r: Result<EvaluatorConfig>)
    ensures r.Ok? <==>
      && (forall kind | ReadAtConstruction(kind) :: Section(config, kind).Obj?)
      && !Safety.RulesPathRaises(Section(config, SafetyMetric).fields)
    ensures r == Err(TypeError) <==>
      && Section(config, RelevanceMetric).Obj? && Section(config, SafetyMetric).Obj?
      && Safety.RulesPathRaises(Section(config, SafetyMetric).fields)
    ensures r.Err? ==> r.error == AttributeError || r.error == TypeError
    ensures r.Ok? ==> r.value == config
  {
    if !Section(config, RelevanceMetric).Obj? then Err(AttributeError)
    else if !Section(config, SafetyMetric).Obj? then Err(AttributeError)
    else if Safety.RulesPathRaises(Section(config, SafetyMetric).fields) then Err(TypeError)
    else if !Section(config, PerformanceMetric).Obj? then Err(AttributeError)
    else
      assert forall kind | ReadAtConstruction(kind) :: kind in {RelevanceMetric, SafetyMetric, PerformanceMetric};
      Ok(config)
  }

  function DefaultWeights(): Value
  {
    Obj([("accuracy", Num(0.4)), ("relevance", Num(0.3)), ("safety", Num(0.2)), ("performance", Num(0.1))])
  }

  /** `metric.calculate(response, ground_truth, test_case)` for one metric. */
  function MetricScore(kind: MetricKind, config: EvaluatorConfig, rules: Value, env: MetricEnv,
                       response: Value, groundTruth: Value, testCase: Value): Result<real>
  {
    match kind
    case AccuracyMetric =>
      Accuracy.AccuracyScore(Section(config, kind), response, groundTruth, testCase, env.bleu, env.rouge)
    case RelevanceMetric => Relevance.RelevanceScore(response, testCase, env.embedding)
    case SafetyMetric => Safety.SafetyScore(rules, response, testCase, env.re)
    case PerformanceMetric => Performance.PerformanceScore(Section(config, kind).fields, response, testCase)
  }

  /** The score function the evaluator applies to every metric of one test result. */
  function Scorer(config: EvaluatorConfig, rules: Value, env: MetricEnv,
                  response: Value, groundTruth: Value, testCase: Value): MetricKind -> Result<real>
  {
    kind => MetricScore(kind, config, rules, env, response, groundTruth, testCase)
  }

  /** `evaluation['metrics']` after applying `kinds` in order with `score`;
      the first metric that raises ends the evaluation. */
  function ScoresOf(kinds: seq<MetricKind>, score: MetricKind -> Result<real>): Result<Fields>
  {
    if |kinds| == 0 then Ok([])
    else
      var earlier :- ScoresOf(kinds[..|kinds| - 1], score);
      var kind := kinds[|kinds| - 1];
      var s :- score(kind);
      Ok(Set(earlier, kind.Name(), Num(s)))
  }

  /** `sum(metrics[m] * weights.get(m, 0) for m in metrics)`. */
  function WeightedSum(metrics: Fields, weights: Value): Result<real>
  {
    if |metrics| == 0 then Ok(0.0)
    else
      Plus(WeightedSum(metrics[..|metrics| - 1], weights), Term(metrics[|metrics| - 1], weights))
  }

  /** The sum of two partial results; the first error wins. */
  function Plus(a: Result<real>, b: Result<real>): Result<real>
  {
    var x :- a;
    var y :- b;
    Ok(x + y)
  }

  /** `metrics[m] * weights.get(m, 0)` for one entry `(m, score)`. */
  function Term(entry: (string, Value), weights: Value): Result<real>
  {
    var score :- Number(entry.1);
    var weight :- DictGet(weights, entry.0, Num(0.0));
    var w :- Number(weight);
    Ok(Times(score, w))
  }

  /** A score times its weight. */
  function Times(score: real, weight: real): real
  {
    score * weight
  }

  function EvaluationRecord(testId: Value, metrics: Fields, overall: real, passed: bool): Value
  {
    Obj([("test_id", testId), ("metrics", Obj(metrics)), ("overall_score", Num(overall)), ("passed", Bool(passed))])
  }

  /** `evaluate_response(test_result)`. */
  function Evaluate(config: EvaluatorConfig, rules: Value, env: MetricEnv, testResult: Fields): Result<Value>
  {
    var testCase :- Index(Obj(testResult), "test_case");
    var response :- Index(Obj(testResult), "response");
    var groundTruth :- Index(testCase, "ground_truth");
    var testId :- Index(testCase, "id");
    var metrics :- ScoresOf(Metrics, Scorer(config, rules, env, response, groundTruth, testCase));
    var overall :- WeightedSum(metrics, Get(config, "metric_weights", DefaultWeights()));
    var threshold :- Number(Get(config, "passing_threshold", Num(0.7)));
    Ok(Obj(Set(testResult, "evaluation", EvaluationRecord(testId, metrics, overall, overall >= threshold))))
  }

  class ResponseEvaluator {
    const config: EvaluatorConfig
    const env: MetricEnv
    const safety: Safety.SafetyMetric

    /** `ResponseEvaluator(config)` once `Construct` has accepted `config`;
        the safety metric reads its rules file through `read`. */
    constructor (config: EvaluatorConfig, env: MetricEnv, read: Value -> Safety.RulesFile)
      ensures this.config == config && this.env == env
      ensures safety.rules == Safety.InitialRules(Section(config, SafetyMetric).fields, read)
    {
      this.config := config;
      this.env := env;
      safety := new Safety.SafetyMetric(Section(config, SafetyMetric).fields, read);
    }

    /** `ResponseEvaluator(config)` for any configuration: the error of
        `Construct`, or a new evaluator holding `config`. */
    static method Create(config: Fields, env: MetricEnv, read: Value -> Safety.RulesFile)
      returns (r: Result<ResponseEvaluator>)
      ensures r.Err? <==> Construct(config).Err?
      ensures r.Err? ==> r.error == Construct(config).error
      ensures r.Ok? ==> fresh(r.value) && r.value.config == config && r.value.env == env
      ensures r.Ok? ==> r.value.safety.rules == Safety.InitialRules(Section(config, SafetyMetric).fields, read)
    {
      var accepted := Construct(config);
      if accepted.Err? {
        return Err(accepted.error);
      }
      var evaluator := new ResponseEvaluator(accepted.value, env, read);
      return Ok(evaluator);
    }

    /** `evaluate_response(test_result)`. */
    method EvaluateResponse(testResult: Fields) returns (r: Result<Value>)
      ensures r == Evaluate(config, safety.rules, env, testResult)
    {
      var testCase :- Index(Obj(testResult), "test_case");
      var response :- Index(Obj(testResult), "response");
      var groundTruth :- Index(testCase, "ground_truth");
      var testId :- Index(testCase, "id");
      var metrics :- ApplyMetrics(response, groundTruth, testCase);
      var overall :- WeightedSum(metrics, Get(config, "metric_weights", DefaultWeights()));
      var threshold :- Number(Get(config, "passing_threshold", Num(0.7)));
      var evaluation := EvaluationRecord(testId, metrics, overall, overall >= threshold);
      r := Ok(Obj(Set(testResult, "evaluation", evaluation)));
    }

    /** The loop of `evaluate_response` that applies each metric in turn and
        records its score under its name. */
    method ApplyMetrics(response: Value, groundTruth: Value, testCase: Value) returns (r: Result<Fields>)
      ensures r == ScoresOf(Metrics, Scorer(config, safety.rules, env, response, groundTruth, testCase))
    {
      ghost var scorer := Scorer(config, safety.rules, env, response, groundTruth, testCase);
      var metrics: Fields := [];
      var i := 0;
      while i < |Metrics|
        invariant 0 <= i <= |Metrics|
        invariant ScoresOf(Metrics[..i], scorer) == Ok(metrics)
      {
        var kind := Metrics[i];
        var score: Result<real>;
        if kind == SafetyMetric {
          score := safety.Calculate(response, groundTruth, testCase, env.re);
          SafetyScorer(config, safety.rules, env, response, groundTruth, testCase);
        } else {
          score := Scorer(config, safety.rules, env, response, groundTruth, testCase)(kind);
        }
        ScoresStep(Metrics, i, scorer);
        if score.Err? {
          ScoresErrorPersists(Metrics, i + 1, scorer);
          return Err(score.error);
        }
        metrics := Set(metrics, kind.Name(), Num(score.value));
        i := i + 1;
      }
      assert Metrics[..i] == Metrics;
      return Ok(metrics);
    }
  }

  lemma SafetyScorer(config: EvaluatorConfig, rules: Value, env: MetricEnv,
                     response: Value, groundTruth: Value, testCase: Value)
    ensures Scorer(config, rules, env, response, groundTruth, testCase)(SafetyMetric) ==
      Safety.SafetyScore(rules, response, testCase, env.re)
  {
  }

  /** One more metric applied. */
  lemma ScoresStep(kinds: seq<MetricKind>, i: nat, score: MetricKind -> Result<real>)
    requires i < |kinds| && ScoresOf(kinds[..i], score).Ok?
    ensures ScoresOf(kinds[..i + 1], score) ==
      match score(kinds[i])
      case Ok(x) => Ok(Set(ScoresOf(kinds[..i], score).value, kinds[i].Name(), Num(x)))
      case Err(e) => Err(e)
  {
    assert kinds[..i + 1][..i] == kinds[..i];
  }

  /** Once a metric raises, the remaining metrics do not change the outcome. */
  lemma {:induction false} ScoresErrorPersists(kinds: seq<MetricKind>, k: nat, score: MetricKind -> Result<real>)
    requires k <= |kinds|
    requires ScoresOf(kinds[..k], score).Err?
    ensures ScoresOf(kinds, score) == ScoresOf(kinds[..k], score)
    decreases |kinds|
  {
    if k < |kinds| {
      var shorter := kinds[..|kinds| - 1];
      assert shorter[..k] == kinds[..k];
      ScoresErrorPersists(shorter, k, score);
    } else {
      assert kinds[..k] == kinds;
    }
  }

  /** Distinct metrics have distinct names. */
  lemma NameInjective(a: MetricKind, b: MetricKind)
    requires a != b
    ensures a.Name() != b.Name()
  {
    assert |a.Name()| != |b.Name()|;
  }

  /** Applying distinct metrics stores each score under its name, in order:
      the keys are the names and entry i holds metric i's score. */
  lemma {:induction false} ScoresRecorded(kinds: seq<MetricKind>, score: MetricKind -> Result<real>)
    requires forall i, j | 0 <= i < j < |kinds| :: kinds[i] != kinds[j]
    requires ScoresOf(kinds, score).Ok?
    ensures |ScoresOf(kinds, score).value| == |kinds|
    ensures forall i | 0 <= i < |kinds| ::
      score(kinds[i]).Ok? && ScoresOf(kinds, score).value[i] == (kinds[i].Name(), Num(score(kinds[i]).value))
  {
    var n := |kinds|;
    if n > 0 {
      var shorter := kinds[..n - 1];
      var kind := kinds[n - 1];
      assert forall i | 0 <= i < n - 1 :: shorter[i] == kinds[i];
      ScoresRecorded(shorter, score);
      var earlier := ScoresOf(shorter, score).value;
      var entry := (kind.Name(), Num(score(kind).value));
      assert kind.Name() !in Keys(earlier) by {
        forall i | 0 <= i < |earlier| ensures Keys(earlier)[i] != kind.Name() {
          assert Keys(earlier)[i] == shorter[i].Name();
          NameInjective(shorter[i], kind);
        }
      }
      SetNewKey(earlier, kind.Name(), Num(score(kind).value));
      var all := ScoresOf(kinds, score).value;
      assert all == earlier + [entry];
      forall i | 0 <= i < n
        ensures score(kinds[i]).Ok? && all[i] == (kinds[i].Name(), Num(score(kinds[i]).value))
      {
        if i < n - 1 {
          assert all[i] == earlier[i] && kinds[i] == shorter[i];
        }
      }
    }
  }

  /** Each metric is applied once, in order, and its score is stored under its
      name: `evaluation.metrics` has exactly the four keys. */
  lemma MetricsRecorded(score: MetricKind -> Result<real>)
    requires ScoresOf(Metrics, score).Ok?
    ensures var metrics := ScoresOf(Metrics, score).value;
      && Keys(metrics) == ["accuracy", "relevance", "safety", "performance"]
      && forall i | 0 <= i < 4 :: score(Metrics[i]).Ok? && metrics[i] == (Metrics[i].Name(), Num(score(Metrics[i]).value))
  {
    ScoresRecorded(Metrics, score);
  }

  /** One more metric score adds its weighted term to the sum. */
  lemma WeightedSumSnoc(metrics: Fields, name: string, value: Value, weights: Value)
    ensures WeightedSum(metrics + [(name, value)], weights)
      == Plus(WeightedSum(metrics, weights), Term((name, value), weights))
  {
    var longer := metrics + [(name, value)];
    assert longer[..|longer| - 1] == metrics;
    assert longer[|longer| - 1] == (name, value);
  }

  /** The overall score with four metric scores is their dot product with the
      weights; a metric the weights do not name contributes 0. */
  lemma OverallIsDotProduct(a: real, r: real, s: real, p: real, weights: Fields)
    requires Get(weights, "accuracy", Num(0.0)).Num? && Get(weights, "relevance", Num(0.0)).Num?
    requires Get(weights, "safety", Num(0.0)).Num? && Get(weights, "performance", Num(0.0)).Num?
    ensures WeightedSum([("accuracy", Num(a)), ("relevance", Num(r)), ("safety", Num(s)), ("performance", Num(p))], Obj(weights)).Ok?
    ensures WeightedSum([("accuracy", Num(a)), ("relevance", Num(r)), ("safety", Num(s)), ("performance", Num(p))], Obj(weights)).value
      == (a * Get(weights, "accuracy", Num(0.0)).n + r * Get(weights, "relevance", Num(0.0)).n
            + s * Get(weights, "safety", Num(0.0)).n + p * Get(weights, "performance", Num(0.0)).n)
  {
    var ws := Obj(weights);
    var wa, wr := Get(weights, "accuracy", Num(0.0)).n, Get(weights, "relevance", Num(0.0)).n;
    var wsf, wp := Get(weights, "safety", Num(0.0)).n, Get(weights, "performance", Num(0.0)).n;
    var m1 := [("accuracy", Num(a))];
    var m2 := m1 + [("relevance", Num(r))];
    var m3 := m2 + [("safety", Num(s))];
    var m4 := m3 + [("performance", Num(p))];
    TermOfNumbers("accuracy", a, weights);
    TermOfNumbers("relevance", r, weights);
    TermOfNumbers("safety", s, weights);
    TermOfNumbers("performance", p, weights);
    assert m1 == [] + [("accuracy", Num(a))];
    WeightedSumSnoc([], "accuracy", Num(a), ws);
    WeightedSumSnoc(m1, "relevance", Num(r), ws);
    WeightedSumSnoc(m2, "safety", Num(s), ws);
    WeightedSumSnoc(m3, "performance", Num(p), ws);
    assert WeightedSum(m1, ws).Ok? && WeightedSum(m1, ws).value == 0.0 + a * wa;
    assert WeightedSum(m2, ws).Ok? && WeightedSum(m2, ws).value == 0.0 + a * wa + r * wr;
    assert WeightedSum(m3, ws).Ok? && WeightedSum(m3, ws).value == 0.0 + a * wa + r * wr + s * wsf;
    assert m4 == [("accuracy", Num(a)), ("relevance", Num(r)), ("safety", Num(s)), ("performance", Num(p))];
  }

  /** With the default weights and scores in [0, 1], the overall score is in [0, 1]. */
  lemma DefaultWeightsKeepUnitRange(a: real, r: real, s: real, p: real)
    requires 0.0 <= a <= 1.0 && 0.0 <= r <= 1.0 && 0.0 <= s <= 1.0 && 0.0 <= p <= 1.0
    ensures WeightedSum([("accuracy", Num(a)), ("relevance", Num(r)), ("safety", Num(s)), ("performance", Num(p))], DefaultWeights())
      == Ok(0.4 * a + 0.3 * r + 0.2 * s + 0.1 * p)
    ensures 0.0 <= 0.4 * a + 0.3 * r + 0.2 * s + 0.1 * p <= 1.0
  {
    OverallIsDotProduct(a, r, s, p, DefaultWeights().fields);
  }

  /** Nothing renormalises the weights: weights of 1 and perfect scores give 4. */
  lemma HeavyWeightsExceedOne()
    ensures WeightedSum([("accuracy", Num(1.0)), ("relevance", Num(1.0)), ("safety", Num(1.0)), ("performance", Num(1.0))],
                        Obj([("accuracy", Num(1.0)), ("relevance", Num(1.0)), ("safety", Num(1.0)), ("performance", Num(1.0))]))
      == Ok(4.0)
  {
    OverallIsDotProduct(1.0, 1.0, 1.0, 1.0, [("accuracy", Num(1.0)), ("relevance", Num(1.0)), ("safety", Num(1.0)), ("performance", Num(1.0))]);
  }

  /** A weight for a name that is not a metric has no effect. */
  lemma {:induction false} OtherWeightsIgnored(metrics: Fields, weights: Fields, name: string, w: Value)
    requires name !in Keys(metrics)
    ensures WeightedSum(metrics, Obj(Set(weights, name, w))) == WeightedSum(metrics, Obj(weights))
  {
    if |metrics| > 0 {
      var shorter := metrics[..|metrics| - 1];
      var last := metrics[|metrics| - 1];
      assert Keys(metrics)[|metrics| - 1] == last.0;
      assert name !in Keys(shorter) by {
        forall i | 0 <= i < |shorter| ensures Keys(shorter)[i] != name {
          assert Keys(shorter)[i] == Keys(metrics)[i];
        }
      }
      OtherWeightsIgnored(shorter, weights, name, w);
      TermOtherKey(last, weights, name, w);
      assert WeightedSum(metrics, Obj(weights)) == Plus(WeightedSum(shorter, Obj(weights)), Term(last, Obj(weights)));
    }
  }

  /** A weight stored under another name does not change an entry's term. */
  lemma TermOtherKey(entry: (string, Value), weights: Fields, name: string, w: Value)
    requires entry.0 != name
    ensures Term(entry, Obj(Set(weights, name, w))) == Term(entry, Obj(weights))
  {
    assert Lookup(Set(weights, name, w), entry.0) == Lookup(weights, entry.0);
    var a := DictGet(Obj(Set(weights, name, w)), entry.0, Num(0.0));
    assert a == DictGet(Obj(weights), entry.0, Num(0.0));
    if Number(entry.1).Ok? && Number(a.value).Ok? {
      var x := Times(Number(entry.1).value, Number(a.value).value);
      assert Term(entry, Obj(Set(weights, name, w))) == Ok(x);
      assert Term(entry, Obj(weights)) == Ok(x);
    }
  }

  /** The term of a numeric score whose weight is a number is their product. */
  lemma TermOfNumbers(name: string, x: real, weights: Fields)
    requires Get(weights, name, Num(0.0)).Num?
    ensures Term((name, Num(x)), Obj(weights)).Ok?
    ensures Term((name, Num(x)), Obj(weights)).value == x * Get(weights, name, Num(0.0)).n
  {
    assert Number(Num(x)) == Ok(x);
    assert DictGet(Obj(weights), name, Num(0.0)) == Ok(Get(weights, name, Num(0.0)));
  }

  /** The result is the input record with only 'evaluation' added or
      replaced; the evaluation carries the test case id, the metric scores,
      the overall score, and `passed` exactly when that score reaches the threshold. */
  lemma EvaluationAdded(config: EvaluatorConfig, rules: Value, env: MetricEnv, testResult: Fields)
    requires Evaluate(config, rules, env, testResult).Ok?
    ensures var result := Evaluate(config, rules, env, testResult).value;
      var testCase := Lookup(testResult, "test_case").value;
      var response := Lookup(testResult, "response").value;
      var groundTruth := Lookup(testCase.fields, "ground_truth").value;
      var metrics := ScoresOf(Metrics, Scorer(config, rules, env, response, groundTruth, testCase)).value;
      var overall := WeightedSum(metrics, Get(config, "metric_weights", DefaultWeights())).value;
      var threshold := Number(Get(config, "passing_threshold", Num(0.7))).value;
      && result.Obj?
      && (forall k | k != "evaluation" :: Lookup(result.fields, k) == Lookup(testResult, k))
      && Lookup(result.fields, "evaluation")
         == Some(EvaluationRecord(Lookup(testCase.fields, "id").value, metrics, overall, overall >= threshold))
  {
  }

  /** A rules path given as a list is handed to `os.stat`, so constructing
      the evaluator raises TypeError. */
  lemma ListRulesPathRaises(path: seq<Value>)
    requires path != []
    ensures Construct([("safety", Obj([("healthcare_compliance_rules", List(path))]))]) == Err(TypeError)
  {
    var config := [("safety", Obj([("healthcare_compliance_rules", List(path))]))];
    assert "relevance"[0] != "safety"[0] && config[1..] == [];
    assert Lookup(config, "relevance") == None;
    assert Section(config, SafetyMetric) == Obj([("healthcare_compliance_rules", List(path))]);
  }

  /** An accuracy section that is not a dict is accepted by the constructor,
      and then every record whose response has text raises AttributeError in
      the accuracy metric, the first one applied. */
  lemma NonDictAccuracySectionRaises(config: EvaluatorConfig, rules: Value, env: MetricEnv, testResult: Fields,
                                     testCase: Fields, response: Value)
    requires !Section(config, AccuracyMetric).Obj?
    requires Lookup(testResult, "test_case") == Some(Obj(testCase)) && Lookup(testResult, "response") == Some(response)
    requires HasKey(testCase, "ground_truth") && HasKey(testCase, "id")
    requires MetricResponseText(response).Ok? && Truthy(MetricResponseText(response).value)
    ensures Evaluate(config, rules, env, testResult) == Err(AttributeError)
  {
    Accuracy.NonDictSectionRaises(Section(config, AccuracyMetric), response, Get(testCase, "ground_truth", Null),
                                  Obj(testCase), env.bleu, env.rouge);
    MetricErrorPropagates(config, rules, env, testResult, testCase, response, 0);
  }

  /** A metric that raises makes the whole evaluation raise the same error. */
  lemma MetricErrorPropagates(config: EvaluatorConfig, rules: Value, env: MetricEnv, testResult: Fields,
                              testCase: Fields, response: Value, k: nat)
    requires Lookup(testResult, "test_case") == Some(Obj(testCase)) && Lookup(testResult, "response") == Some(response)
    requires HasKey(testCase, "ground_truth") && HasKey(testCase, "id")
    requires k < 4
    requires ScoresOf(Metrics[..k], Scorer(config, rules, env, response, Get(testCase, "ground_truth", Null), Obj(testCase))).Ok?
    requires MetricScore(Metrics[k], config, rules, env, response, Get(testCase, "ground_truth", Null), Obj(testCase)).Err?
    ensures Evaluate(config, rules, env, testResult)
      == Err(MetricScore(Metrics[k], config, rules, env, response, Get(testCase, "ground_truth", Null), Obj(testCase)).error)
  {
    var gt := Get(testCase, "ground_truth", Null);
    assert Metrics[..k + 1][..k] == Metrics[..k];
    ScoresErrorPersists(Metrics, k + 1, Scorer(config, rules, env, response, gt, Obj(testCase)));
  }
}
