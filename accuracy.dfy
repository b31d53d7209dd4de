/**
 * The accuracy metric: a weighted blend of the BLEU score and the ROUGE-L
 * F-measure of the response against the ground truth, clamped into [0, 1].
 * Both library scores are parameters; None stands for a computation that raised.
 */
module Accuracy {
  import opened Values
  import opened MetricCommon

  /** BLEU of a hypothesis against a reference: `bleu(ground_truth, text)`. */
  type Bleu = (Value, Value) -> Option<real>

  /** Whether the `rouge` package loaded, and if so the ROUGE-L F-measure
      `rougeL(text, ground_truth)`. */
  datatype Rouge = Unavailable | Available(rougeL: (Value, Value) -> Option<real>)

  /** `calculate(response, ground_truth, test_case)` for the metric built from
      the section `config`, which `calculate` reads with `.get`. */
  function AccuracyScore(config: Value, response: Value, groundTruth: Value, testCase: Value,
                         bleu: Bleu, rouge: Rouge): Result<real>
  {
    var text :- MetricResponseText(response);
    if !Truthy(text) then
      // the warning message evaluates `test_case.get('id', 'unknown')`
      if testCase.Obj? then Ok(0.0) else Err(AttributeError)
    else
      var bleuScore := bleu(groundTruth, text).GetOr(0.0);
      var rougeScore := if rouge.Available? then rouge.rougeL(text, groundTruth).GetOr(0.0) else 0.0;
      var bleuWeight :- DictGet(config, "bleu_weight", Num(0.5));
      var rougeWeight :- DictGet(config, "rouge_weight", Num(0.5));
      match rouge
      case Unavailable => Ok(Clamp(bleuScore))
      case Available(_) =>
        var bw :- Number(bleuWeight);
        var rw :- Number(rougeWeight);
        Ok(Clamp(bleuScore * bw + rougeScore * rw))
  }

  /** An empty response scores 0. */
  lemma EmptyResponseScoresZero(config: Value, response: Fields, groundTruth: Value, testCase: Fields,
                                bleu: Bleu, rouge: Rouge)
    requires !Truthy(Get(response, "text", Str(""))) && !Truthy(Get(response, "answer", Str("")))
    ensures AccuracyScore(config, Obj(response), groundTruth, Obj(testCase), bleu, rouge) == Ok(0.0)
  {
    TextTruthyIff(response);
  }

  /** Without ROUGE the score is the clamped BLEU score, whatever the weights say. */
  lemma WithoutRougeWeightsIgnored(config: Fields, response: Value, groundTruth: Value, testCase: Value, bleu: Bleu)
    requires MetricResponseText(response).Ok? && Truthy(MetricResponseText(response).value)
    ensures AccuracyScore(Obj(config), response, groundTruth, testCase, bleu, Unavailable)
      == Ok(Clamp(bleu(groundTruth, MetricResponseText(response).value).GetOr(0.0)))
    ensures AccuracyScore(Obj(config), response, groundTruth, testCase, bleu, Unavailable)
      == AccuracyScore(Obj([]), response, groundTruth, testCase, bleu, Unavailable)
  {
  }

  /** With ROUGE and no configured weights, both scores weigh one half. */
  lemma DefaultWeightsBlendEqually(response: Value, groundTruth: Value, testCase: Value,
                                   bleu: Bleu, rougeL: (Value, Value) -> Option<real>, b: real, r: real)
    requires MetricResponseText(response).Ok? && Truthy(MetricResponseText(response).value)
    requires bleu(groundTruth, MetricResponseText(response).value) == Some(b)
    requires rougeL(MetricResponseText(response).value, groundTruth) == Some(r)
    ensures AccuracyScore(Obj([]), response, groundTruth, testCase, bleu, Available(rougeL)) == Ok(Clamp(0.5 * b + 0.5 * r))
  {
  }

  /** A BLEU or ROUGE computation that raises counts as a score of 0. */
  lemma FailedScoresCountAsZero(config: Value, response: Value, groundTruth: Value, testCase: Value,
                                bleu: Bleu, rougeL: (Value, Value) -> Option<real>)
    requires MetricResponseText(response).Ok?
    ensures var text := MetricResponseText(response).value;
      bleu(groundTruth, text) == None ==>
        AccuracyScore(config, response, groundTruth, testCase, bleu, Available(rougeL))
        == AccuracyScore(config, response, groundTruth, testCase, (_, _) => Some(0.0), Available(rougeL))
    ensures var text := MetricResponseText(response).value;
      rougeL(text, groundTruth) == None ==>
        AccuracyScore(config, response, groundTruth, testCase, bleu, Available(rougeL))
        == AccuracyScore(config, response, groundTruth, testCase, bleu, Available((_, _) => Some(0.0)))
  {
  }

  /** Every accuracy score lies in [0, 1], even for out-of-range library
      scores or weights. */
  lemma ScoreInUnitInterval(config: Value, response: Value, groundTruth: Value, testCase: Value,
                            bleu: Bleu, rouge: Rouge)
    requires AccuracyScore(config, response, groundTruth, testCase, bleu, rouge).Ok?
    ensures 0.0 <= AccuracyScore(config, response, groundTruth, testCase, bleu, rouge).value <= 1.0
  {
  }

  /** A weight that is not a number makes the blend raise TypeError. */
  lemma NonNumericWeightRaises(config: Fields, response: Value, groundTruth: Value, testCase: Value,
                               bleu: Bleu, rougeL: (Value, Value) -> Option<real>)
    requires MetricResponseText(response).Ok? && Truthy(MetricResponseText(response).value)
    requires Get(config, "bleu_weight", Num(0.5)).Str?
    ensures AccuracyScore(Obj(config), response, groundTruth, testCase, bleu, Available(rougeL)) == Err(TypeError)
  {
  }

  /** A section that is not a dict (a YAML key with no value gives None) has
      no `.get`: every response with text raises AttributeError, with or
      without ROUGE, while an empty response still scores 0. */
  lemma NonDictSectionRaises(config: Value, response: Value, groundTruth: Value, testCase: Value,
                             bleu: Bleu, rouge: Rouge)
    requires !config.Obj? && MetricResponseText(response).Ok?
    ensures Truthy(MetricResponseText(response).value) ==>
      AccuracyScore(config, response, groundTruth, testCase, bleu, rouge) == Err(AttributeError)
    ensures !Truthy(MetricResponseText(response).value) && testCase.Obj? ==>
      AccuracyScore(config, response, groundTruth, testCase, bleu, rouge) == Ok(0.0)
  {
  }
}
