/**
 * The performance metric: a time score (threshold over response time) and,
 * when the response reports token usage, a token-efficiency score, blended
 * with configurable weights.
 */
module Performance {
  import opened Values
  import opened MetricCommon
  import Statistics

  /** The time score for a response time `rt` already known to be positive. */
  function TimeScoreFor(threshold: real, rt: real): real
  {
    Min(1.0, threshold / Max(1.0, rt))
  }

  /** The token score once both counts are present and numeric. */
  function TokenScoreFor(prompt: real, completion: real, expected: real): (r: Result<real>)
    ensures r.Err? <==> completion / Max(1.0, prompt) > expected && expected == 0.0
    ensures r.Err? ==> r.error == ZeroDivisionError
  {
    var ratio := completion / Max(1.0, prompt);
    if ratio <= expected then Ok(1.0)
    else if expected == 0.0 then Err(ZeroDivisionError)
    else Ok(Max(0.0, 1.0 - (ratio - expected) / expected))
  }

  /** `_calculate_token_efficiency(response, test_case)`: None when the
      response lacks a truthy prompt or completion token count. */
  function TokenEfficiency(config: Fields, response: Value): Result<Option<real>>
  {
    var usage :- DictGet(response, "usage", Obj([]));
    var prompt :- DictGet(usage, "prompt_tokens", Null);
    var completion :- DictGet(usage, "completion_tokens", Null);
    if !Truthy(prompt) || !Truthy(completion) then Ok(None)
    else
      var p :- Number(prompt);
      var c :- Number(completion);
      var expected :- Number(Get(config, "expected_token_ratio", Num(1.5)));
      var score :- TokenScoreFor(p, c, expected);
      Ok(Some(score))
  }

  /** `calculate(response, ground_truth, test_case)` under configuration `config`. */
  function PerformanceScore(config: Fields, response: Value, testCase: Value): Result<real>
  {
    var rtValue :- DictGet(testCase, "response_time_ms", Num(0.0));
    var rt :- Number(rtValue);
    var timeScore :-
      if rt > 0.0 then
        var threshold :- Number(Get(config, "response_time_threshold_ms", Num(1000.0)));
        Ok(TimeScoreFor(threshold, rt))
      else Ok(1.0);
    var tokenScore :- TokenEfficiency(config, response);
    match tokenScore
    case None => Ok(timeScore)
    case Some(token) =>
      var timeWeight :- Number(Get(config, "time_weight", Num(0.7)));
      var tokenWeight :- Number(Get(config, "token_weight", Num(0.3)));
      Ok(Clamp(timeScore * timeWeight + token * tokenWeight))
  }

  /** The time score never exceeds 1; with a non-negative threshold it is in
      [0, 1], and it is 1 exactly when the response time is within the threshold. */
  lemma TimeScoreBounds(threshold: real, rt: real)
    requires rt > 0.0
    ensures TimeScoreFor(threshold, rt) <= 1.0
    ensures threshold >= 0.0 ==> 0.0 <= TimeScoreFor(threshold, rt)
    ensures rt >= 1.0 ==> (TimeScoreFor(threshold, rt) == 1.0 <==> rt <= threshold)
  {
    if rt >= 1.0 {
      var q := threshold / rt;
      assert q * rt == threshold;
      if rt <= threshold {
        assert q >= 1.0;
      } else {
        assert q < 1.0;
      }
    }
  }

  /** With the default threshold, 500 ms scores exactly 1. */
  lemma HalfSecondIsFullScore()
    ensures TimeScoreFor(1000.0, 500.0) == 1.0
  {
  }

  /** A missing, zero or negative response time scores 1 for time. */
  lemma NoResponseTimeIsFullTime(config: Fields, response: Value, testCase: Fields)
    requires Get(testCase, "response_time_ms", Num(0.0)).Num? && Get(testCase, "response_time_ms", Num(0.0)).n <= 0.0
    requires TokenEfficiency(config, response) == Ok(None)
    ensures PerformanceScore(config, response, Obj(testCase)) == Ok(1.0)
  {
  }

  /** Without usage counts the time score is returned alone, unweighted. */
  lemma NoTokensTimeAlone(config: Fields, response: Value, testCase: Fields, rt: real)
    requires Get(testCase, "response_time_ms", Num(0.0)) == Num(rt) && rt > 0.0
    requires Get(config, "response_time_threshold_ms", Num(1000.0)).Num?
    requires TokenEfficiency(config, response) == Ok(None)
    ensures PerformanceScore(config, response, Obj(testCase))
      == Ok(TimeScoreFor(Get(config, "response_time_threshold_ms", Num(1000.0)).n, rt))
  {
  }

  /** A response without a truthy prompt or completion count has no token score. */
  lemma MissingCountsNoTokenScore(config: Fields, usage: Fields, rest: Fields)
    requires !Truthy(Get(usage, "prompt_tokens", Null)) || !Truthy(Get(usage, "completion_tokens", Null))
    ensures TokenEfficiency(config, Obj([("usage", Obj(usage))] + rest)) == Ok(None)
  {
  }

  /** With a positive expected ratio the token score is in [0, 1], and it is 1
      exactly when the ratio is within the expected one. */
  lemma TokenScoreBounds(prompt: real, completion: real, expected: real)
    requires expected > 0.0
    ensures TokenScoreFor(prompt, completion, expected).Ok?
    ensures 0.0 <= TokenScoreFor(prompt, completion, expected).value <= 1.0
    ensures TokenScoreFor(prompt, completion, expected).value == 1.0 <==> completion / Max(1.0, prompt) <= expected
  {
    var ratio := completion / Max(1.0, prompt);
    if ratio > expected {
      var q := (ratio - expected) / expected;
      assert q * expected == ratio - expected;
      assert q > 0.0;
    }
  }

  /** More completion tokens never raise the token score. */
  lemma TokenScoreNonIncreasing(prompt: real, c1: real, c2: real, expected: real)
    requires expected > 0.0 && c1 <= c2
    ensures TokenScoreFor(prompt, c2, expected).value <= TokenScoreFor(prompt, c1, expected).value
  {
    var d := Max(1.0, prompt);
    Statistics.DivideMonotone(c1, c2, d);
    var r1 := c1 / d;
    var r2 := c2 / d;
    TokenScoreBounds(prompt, c1, expected);
    TokenScoreBounds(prompt, c2, expected);
    if r1 > expected {
      Statistics.DivideMonotone(r1 - expected, r2 - expected, expected);
    }
  }

  /** A negative expected ratio lets the token score exceed 1. */
  lemma NegativeExpectedRatioExceedsOne()
    ensures TokenScoreFor(1.0, 1.0, -1.0) == Ok(3.0)
  {
  }

  /** With a token score the result is clamped into [0, 1]; every result with
      default configuration lies in [0, 1]. */
  lemma ScoreInUnitInterval(response: Value, testCase: Value)
    requires PerformanceScore([], response, testCase).Ok?
    ensures 0.0 <= PerformanceScore([], response, testCase).value <= 1.0
  {
    var rt := Number(DictGet(testCase, "response_time_ms", Num(0.0)).value).value;
    if rt > 0.0 {
      TimeScoreBounds(1000.0, rt);
    }
  }

  /** The time score reads `response_time_ms` from the test case, so a test
      case without one gets full time marks however slow the response was. */
  lemma ResponseTimeComesFromTestCase(config: Fields, response: Fields, testCase: Fields, rt: real)
    requires !HasKey(testCase, "response_time_ms")
    requires TokenEfficiency(config, Obj(response + [("response_time_ms", Num(rt))])) == Ok(None)
    ensures PerformanceScore(config, Obj(response + [("response_time_ms", Num(rt))]), Obj(testCase)) == Ok(1.0)
  {
  }
}
