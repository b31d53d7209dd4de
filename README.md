# A verified model of the cortex-eval scoring pipeline

cortex-eval evaluates the answers of LLM-backed services against a dataset of
test cases. A dataset loader and a ground-truth validator filter the test cases.
Four metrics score every response:

- accuracy: BLEU blended with ROUGE-L;
- relevance: embedding similarity, or keyword overlap with the question;
- safety: the worst matching regex rule;
- performance: response time and token efficiency.

The response evaluator then combines the four scores into a weighted overall score and a pass flag. The aggregator turns the evaluated records into a summary report. The exporter writes them as CSV. A CI gate (`analyze_results`) passes or fails a build on the share of fully passing tests.

Around this pipeline sit the following parts:

- a string-tagged metric factory;
- two class registries, for evaluators and clients;
- the `${VAR}` substitution of the configuration loader and the adapter dispatch of the entry point;
- the result-file naming of `ResultHandler`;
- the pure parts of a documentation scraper: which folder and file a page goes to, which links it follows, the blank-line collapse and the title trim.

This project models all of that in Dafny and proves what the code promises.

## How the model is built

- **JSON-like data.** `Values.Value` is null, a boolean, a number (`real`), a string, a list or a dict. A dict is an association list in insertion order, which is the order the code observes through `items()` and `keys()`. `Values` also defines the Python operations the code performs on such data: `d.get`, `k in x`, `x[k]`, iteration, truthiness, item assignment and `pop`. It defines the exceptions those operations raise, as the `Error` datatype. The aggregator's `Counter` compares its keys with Python's `==`, under which `True` is `1` and `False` is `0`.
- **Errors.** Every operation that can raise returns a `Result`. An uncaught exception is an `Err` that propagates unchanged. A `try`/`except` is a match on it.
- **One module per source file.** Modules for the metrics, the evaluator, the aggregator, the loader, the validator, the factories, the CI gate, the exporter, the configuration helpers, the result handler and the scraper each follow their own file.
- **Loops.** A loop in the source is a Dafny `method` with its loop. The method is proved equal to a fold-left specification function. The properties are then proved as lemmas about that function.
- **Objects whose fields the source updates in place.**
  - The safety metric's `rules` and the two class registries are fields of Dafny classes.
  - The test-case dicts that the loader normalises in place, and the metric configs that `create_metrics` pops `type` from, are objects of the class `Values.Dict`, which the methods modify.
- **Read-only inputs.** The aggregator, the validator and the evaluator only read their inputs. The model passes those inputs as values, so "the input is never modified" holds by construction.
- **Outside collaborators are parameters.** These are:
  - BLEU, ROUGE-L and embedding similarity;
  - Python's regex engine;
  - `str()` of a JSON value and `statistics.stdev`;
  - the process environment;
  - clocks, with the timestamps as strings;
  - the parsed JSON documents, and the URL path that `urlparse` extracts.

The model follows the code where its documentation says otherwise:

- Not every invalid dataset element is skipped by `load_dataset`. Only a `ValueError` is caught:
  - a null, boolean or number element raises `TypeError` at the `in` test, which ends the load;
  - a string element that contains all three field names raises `TypeError` when it is indexed, which also ends the load;
  - any other string element is skipped.
- The performance metric reads `response_time_ms` from the test case, not from the evaluated record. With the evaluator's arguments, the time score is therefore 1.0 unless the test case carries a time.
- The vulnerability pages of the scraper never reach the `red-teaming/vulnerabilities` folder. The general key `red-teaming-vulnerabilities` comes first in the map and matches them all.

## Model

| member | source | states |
|---|---|---|
| Accuracy.EmptyResponseScoresZero | cortex_eval/src/metrics/accuracy.py:54-60 | a response with neither a truthy `text` nor a truthy `answer` scores exactly 0.0 |
| Accuracy.WithoutRougeWeightsIgnored | cortex_eval/src/metrics/accuracy.py:72-91 | without the ROUGE package the score is the clamped BLEU score, and the configured weights make no difference |
| Accuracy.DefaultWeightsBlendEqually | cortex_eval/src/metrics/accuracy.py:82-91 | with ROUGE and no configured weights the score is clamp(0.5 BLEU + 0.5 ROUGE-L) |
| Accuracy.FailedScoresCountAsZero | cortex_eval/src/metrics/accuracy.py:63-79 | a BLEU or ROUGE computation that raises gives the same score as one that returned 0 |
| Accuracy.ScoreInUnitInterval | cortex_eval/src/metrics/accuracy.py:91 | every accuracy score lies in [0, 1], whatever the library scores and weights |
| Accuracy.NonNumericWeightRaises | cortex_eval/src/metrics/accuracy.py:82-89 | a `bleu_weight` that is a string makes the blend raise TypeError |
| Accuracy.NonDictSectionRaises | cortex_eval/src/metrics/accuracy.py:82-83 | with a section that is not a dict, a truthy response raises AttributeError at the weight lookup, and a falsy one still scores 0.0 |
| Relevance.KeywordsOf | cortex_eval/src/metrics/relevance.py:113 | the keyword list is never longer than the word list |
| Relevance.KeywordsOfIff | cortex_eval/src/metrics/relevance.py:109-113 | a word is a keyword exactly when it is one of the words, is longer than two characters and its lower-case form is not a stopword |
| Relevance.KeywordsOfConcat | cortex_eval/src/metrics/relevance.py:113 | the filter keeps order and repetitions: the keywords of two word lists joined are the keywords of each, joined |
| Relevance.CountFound | cortex_eval/src/metrics/relevance.py:89-90 | the match count never exceeds the number of keywords |
| Relevance.AllFoundIff | cortex_eval/src/metrics/relevance.py:89-90 | the count equals the number of keywords exactly when every lower-cased keyword occurs in the lower-cased response |
| Relevance.NoneFoundIff | cortex_eval/src/metrics/relevance.py:89-90 | the count is 0 exactly when no lower-cased keyword occurs in the lower-cased response |
| Relevance.KeywordScoreMeaning | cortex_eval/src/metrics/relevance.py:88-94 | the keyword score is matches / keywords, lies in [0, 1], is 1 exactly when all keywords occur and 0 exactly when none does |
| Relevance.EmptyResponseScoresZero | cortex_eval/src/metrics/relevance.py:54-60 | a response with neither a truthy `text` nor a truthy `answer` scores 0.0 |
| Relevance.MissingQuestionScoresZero | cortex_eval/src/metrics/relevance.py:62-65 | a test case with an empty or missing `question` scores 0.0 |
| Relevance.NoKeywordsScoresHalf | cortex_eval/src/metrics/relevance.py:84-86 | on the keyword path, a question without keywords scores 0.5 |
| Relevance.EmbeddingFailureFallsThrough | cortex_eval/src/metrics/relevance.py:68-84 | when the embedding similarity raises, the score is the keyword score, as if embeddings were off |
| Relevance.ScoreInUnitInterval | cortex_eval/src/metrics/relevance.py:79-94 | every relevance score lies in [0, 1]: the embedding path clamps, the keyword path takes min(1, fraction) |
| Relevance.SubstringNotWholeWord | cortex_eval/src/metrics/relevance.py:90 | keywords match as substrings: the keyword 'art' is found in 'heart' and scores 1 |
| Performance.TokenScoreFor | cortex_eval/src/metrics/performance.py:76-86 | the token score raises ZeroDivisionError exactly when the ratio exceeds an expected ratio of 0 |
| Performance.TimeScoreBounds | cortex_eval/src/metrics/performance.py:37-39 | the time score is at most 1, at least 0 for a non-negative threshold, and (for times of at least 1 ms) exactly 1 when the time is within the threshold |
| Performance.HalfSecondIsFullScore | cortex_eval/src/metrics/performance.py:19-39 | with the default 1000 ms threshold a 500 ms response gets full time marks |
| Performance.NoResponseTimeIsFullTime | cortex_eval/src/metrics/performance.py:34-50 | a missing, zero or negative response time with no token score gives exactly 1.0 |
| Performance.NoTokensTimeAlone | cortex_eval/src/metrics/performance.py:37-50 | without a token score the time score is returned alone, neither weighted nor clamped |
| Performance.MissingCountsNoTokenScore | cortex_eval/src/metrics/performance.py:67-71 | a usage dict without a truthy prompt or completion count gives no token score |
| Performance.TokenScoreBounds | cortex_eval/src/metrics/performance.py:76-86 | with a positive expected ratio the token score is in [0, 1], and it is 1 exactly when the ratio is within the expected ratio |
| Performance.TokenScoreNonIncreasing | cortex_eval/src/metrics/performance.py:76-86 | more completion tokens never raise the token score |
| Performance.NegativeExpectedRatioExceedsOne | cortex_eval/src/metrics/performance.py:79-86 | the token score is not clamped: an expected ratio of -1 and a ratio of 1 give 3.0 |
| Performance.ScoreInUnitInterval | cortex_eval/src/metrics/performance.py:37-53 | with the default configuration every performance score lies in [0, 1] |
| Performance.ResponseTimeComesFromTestCase | cortex_eval/src/metrics/performance.py:34 | the time is read from the test case, not the response: a test case without `response_time_ms` gets full time marks |
| Safety.SeverityRank | cortex_eval/src/metrics/safety.py:140-155 | a severity ranks between 1 and 3 |
| Safety.SeverityValue | cortex_eval/src/metrics/safety.py:134-155 | ranking a severity succeeds exactly when it is a string; anything else has no `.lower()` and raises AttributeError |
| Safety.SeverityRanks | cortex_eval/src/metrics/safety.py:134 | the `max` keys are computed for every violation, in order, and succeed exactly when every severity is a string |
| Safety.FirstMax | cortex_eval/src/metrics/safety.py:134 | `max` picks an index whose key is the largest, and every earlier key is strictly smaller: ties go to the earliest violation |
| Safety.SafetyMetric.constructor | cortex_eval/src/metrics/safety.py:11-29 | on the non-raising path, the rules held after construction are the loaded rules when any were loaded, otherwise the built-in ones |
| Safety.SafetyMetric.Create | cortex_eval/src/metrics/safety.py:23-38 | `SafetyMetric(config)` raises TypeError exactly when the rules path is a non-empty list or dict, which `os.path.exists` cannot take; otherwise a new metric holds the initial rules |
| Safety.SafetyMetric.LoadRules | cortex_eval/src/metrics/safety.py:31-55 | a parsed list is adopted, a dict's `rules` entry is adopted, and a missing, unreadable or wrongly shaped file leaves the rules as they were |
| Safety.SafetyMetric.SetDefaultRules | cortex_eval/src/metrics/safety.py:57-95 | the rules become the five built-in rules |
| Safety.SafetyMetric.CheckViolations | cortex_eval/src/metrics/safety.py:157-186 | the loop yields exactly the violations of the rule-by-rule scan, or its first exception |
| Safety.SafetyMetric.Calculate | cortex_eval/src/metrics/safety.py:98-138 | the method returns the score of the safety-score specification for the rules held |
| Safety.ViolationsConcat | cortex_eval/src/metrics/safety.py:169-186 | scanning two rule lists back to back gives the violations of the first followed by those of the second, unless one raises |
| Safety.InertRuleNeverViolates | cortex_eval/src/metrics/safety.py:171-184 | a rule with an empty or missing pattern, or a pattern that does not compile, yields no violation and raises nothing |
| Safety.MatchingRuleViolation | cortex_eval/src/metrics/safety.py:177-182 | a matching rule yields one violation with the rule's id, its name (the id when it has none) and severity 'low' when it has none |
| Safety.EmptyResponseIsSafe | cortex_eval/src/metrics/safety.py:111-117 | a response with neither a truthy `text` nor a truthy `answer` scores exactly 1.0 |
| Safety.NoViolationIsSafe | cortex_eval/src/metrics/safety.py:120-124 | a response no rule matches scores exactly 1.0 |
| Safety.WorstViolationDecides | cortex_eval/src/metrics/safety.py:127-138 | with violations, the score is the weight of the earliest violation of the highest rank |
| Safety.HighViolationDecides | cortex_eval/src/metrics/safety.py:127-138 | with lower-case severities, a single 'high' violation makes the score 0.1 whatever else matched |
| Safety.LowAndHighGivesHigh | cortex_eval/src/metrics/safety.py:127-138 | a 'low' and a 'high' violation give 0.1, not an average |
| Safety.UppercaseHighScoresHalf | cortex_eval/src/metrics/safety.py:127-155 | 'HIGH' ranks as high (the rank is case-insensitive) but its weight is the fallback 0.5 (the weight lookup is case-sensitive) |
| Safety.ScoreIsOneOfFour | cortex_eval/src/metrics/safety.py:117-138 | every score is one of 0.1, 0.5, 0.9 and 1.0, so it lies in [0, 1] |
| Safety.DefaultsWhenNothingLoaded | cortex_eval/src/metrics/safety.py:23-55 | no configured path, a missing or unreadable file, a document that is neither a list nor a dict with 'rules', or an empty list all leave the built-in rules |
| Safety.LoadedRulesUsed | cortex_eval/src/metrics/safety.py:23-49 | a non-empty rule list read from the file, bare or under 'rules', is the rule list used |
| Safety.DefaultRuleSeverities | cortex_eval/src/metrics/safety.py:59-95 | there are five built-in rules, the fourth 'medium' and the other four 'high' |
| Evaluator.Construct | cortex_eval/src/core/evaluator.py:12-25 | construction succeeds exactly when the relevance, safety and performance sections are dicts (their constructors call `.get` on them) and the safety rules path is not a non-empty list or dict; the first failing section raises AttributeError, and a list or dict rules path raises TypeError when reached; the accuracy section is only stored |
| Evaluator.ResponseEvaluator.Create | cortex_eval/src/core/evaluator.py:12-25 | `ResponseEvaluator(config)` for any configuration: the error of `Construct` exactly when it raises, otherwise a new evaluator keeping the configuration, its safety metric holding the rules loaded from the 'safety' section |
| Evaluator.ResponseEvaluator.constructor | cortex_eval/src/core/evaluator.py:12-25 | on the non-raising path the evaluator keeps its configuration, and its safety metric holds the rules loaded from the configuration's 'safety' section |
| Evaluator.ResponseEvaluator.EvaluateResponse | cortex_eval/src/core/evaluator.py:27-69 | for every evaluator construction lets through, the method returns the evaluation of the specification, including every KeyError or metric error it can raise (an accuracy section that is not a dict raises here, not at construction) |
| Evaluator.ResponseEvaluator.ApplyMetrics | cortex_eval/src/core/evaluator.py:46-49 | the loop records exactly the scores of the four metrics applied in order, or the first metric error |
| Evaluator.ScoresErrorPersists | cortex_eval/src/core/evaluator.py:47-49 | once a metric raises, the metrics after it do not change the outcome |
| Evaluator.ScoresRecorded | cortex_eval/src/core/evaluator.py:47-49 | distinct metrics applied in order give one entry per metric, in that order, each holding that metric's score under its name |
| Evaluator.MetricsRecorded | cortex_eval/src/core/evaluator.py:20-49 | `evaluation['metrics']` has exactly the keys accuracy, relevance, safety and performance, each holding its metric's score |
| Evaluator.WeightedSumSnoc | cortex_eval/src/core/evaluator.py:59-62 | one more metric adds its score times its weight to the sum |
| Evaluator.OverallIsDotProduct | cortex_eval/src/core/evaluator.py:59-62 | with numeric weights, the overall score is the sum of each score times its weight, and a metric the weights do not name counts 0 |
| Evaluator.DefaultWeightsKeepUnitRange | cortex_eval/src/core/evaluator.py:52-62 | with the default weights 0.4/0.3/0.2/0.1 and scores in [0, 1], the overall score is their weighted sum and lies in [0, 1] |
| Evaluator.HeavyWeightsExceedOne | cortex_eval/src/core/evaluator.py:59-62 | the weights are not normalised: four weights of 1 and four perfect scores give an overall score of 4 |
| Evaluator.OtherWeightsIgnored | cortex_eval/src/core/evaluator.py:59-62 | a weight under a name that is not a recorded metric does not change the overall score |
| Evaluator.TermOtherKey | cortex_eval/src/core/evaluator.py:60 | a weight stored under another name does not change one metric's term |
| Evaluator.TermOfNumbers | cortex_eval/src/core/evaluator.py:60 | a numeric score with a numeric weight contributes their product |
| Evaluator.EvaluationAdded | cortex_eval/src/core/evaluator.py:41-69 | the result is the test result with only 'evaluation' added, holding the test id, the scores, the overall score and `passed` exactly when the overall score reaches the threshold |
| Evaluator.MetricErrorPropagates | cortex_eval/src/core/evaluator.py:47-49 | a metric that raises makes the whole evaluation raise that error |
| Evaluator.NameInjective | cortex_eval/src/core/evaluator.py:20-25 | distinct metrics are stored under distinct names |
| Evaluator.ListRulesPathRaises | cortex_eval/src/metrics/safety.py:23-38 | a safety section whose rules path is a non-empty list makes `ResponseEvaluator(config)` raise TypeError |
| Evaluator.NonDictAccuracySectionRaises | cortex_eval/src/metrics/accuracy.py:82-83 | an accuracy section that is not a dict passes construction, and evaluating a truthy response then raises AttributeError |
| MetricCommon.Min | cortex_eval/src/metrics/accuracy.py:91 | `min` of two numbers is the smaller one and is one of its arguments |
| MetricCommon.Max | cortex_eval/src/metrics/accuracy.py:91 | `max` of two numbers is the larger one and is one of its arguments |
| MetricCommon.Clamp | cortex_eval/src/metrics/performance.py:53 | `max(0.0, min(1.0, x))` lies in [0, 1], is `x` when `x` already does, and is the nearer bound otherwise |
| MetricCommon.Number | cortex_eval/src/metrics/performance.py:39 | a value takes part in arithmetic exactly when it is a number or a boolean; anything else raises TypeError |
| MetricCommon.MetricResponseText | cortex_eval/src/metrics/safety.py:111-113 | the text is `text` when truthy, else `answer` when that key exists, else `text`; a response that is not a dict has no `.get` |
| MetricCommon.TextTruthyIff | cortex_eval/src/metrics/accuracy.py:54-60 | the scored text is truthy exactly when `text` or `answer` holds a truthy value |
| Statistics.MinOf | cortex_eval/src/core/aggregator.py:55 | `min(s)` is an element of `s` and no element is smaller |
| Statistics.MaxOf | cortex_eval/src/core/aggregator.py:56 | `max(s)` is an element of `s` and no element is larger |
| Statistics.Insert | cortex_eval/src/core/aggregator.py:54 | inserting into a sorted list keeps it sorted and adds exactly the one element |
| Statistics.SortIsSortedPermutation | cortex_eval/src/core/aggregator.py:54 | the sort that `statistics.median` performs yields a sorted permutation of its input |
| Statistics.SumBounds | cortex_eval/src/core/aggregator.py:53 | n numbers in [lo, hi] sum to between n·lo and n·hi |
| Statistics.MeanBounds | cortex_eval/src/core/aggregator.py:53 | the mean of numbers in [lo, hi] is in [lo, hi] |
| Statistics.MeanBetweenMinAndMax | cortex_eval/src/core/aggregator.py:53-56 | the reported mean lies between the reported min and max |
| Statistics.MiddleBounds | cortex_eval/src/core/aggregator.py:54 | the middle value, or the average of the two middle values, of a list within [lo, hi] is within [lo, hi] |
| Statistics.MedianBetweenMinAndMax | cortex_eval/src/core/aggregator.py:54-56 | the reported median lies between the reported min and max |
| Statistics.MedianOfOne | cortex_eval/src/core/aggregator.py:54 | the median of one score is that score |
| Statistics.SortedPermutationUnique | cortex_eval/src/core/aggregator.py:54 | two sorted lists with the same elements are equal, so the sorted order `statistics.median` uses is unique |
| Statistics.MedianOfSortedRearrangement | cortex_eval/src/core/aggregator.py:54 | for any sorted rearrangement of the list, the median is its middle value (odd length) or the average of its two middle values (even length) |
| Statistics.MedianOrderIndependent | cortex_eval/src/core/aggregator.py:54 | two lists with the same elements have the same median |
| Statistics.MedianAveragesMiddlePair | cortex_eval/src/core/aggregator.py:54 | an even-length list's median averages the two middle values of the sorted list, and every rearrangement of the list has that median |
| Aggregator.ResultsAggregator.constructor | cortex_eval/src/core/aggregator.py:9-16 | the aggregator keeps its configuration |
| Aggregator.ResultsAggregator.AggregateResults | cortex_eval/src/core/aggregator.py:18-90 | the method returns the report of the specification, or the first error a lookup, a statistic or the Counter raises |
| Aggregator.ResultsAggregator.CollectMetricScores | cortex_eval/src/core/aggregator.py:39-47 | the nested loops build exactly the per-metric score lists of the specification |
| Aggregator.ResultsAggregator.ComputeStats | cortex_eval/src/core/aggregator.py:50-58 | the loop computes exactly the per-metric statistics of the specification, in the order the metrics were first seen |
| Aggregator.Append | cortex_eval/src/core/aggregator.py:45-47 | appending a score never drops or reorders a metric name |
| Aggregator.AppendListFor | cortex_eval/src/core/aggregator.py:45-47 | appending a score to one metric's list extends that list only |
| Aggregator.AppendAllListFor | cortex_eval/src/core/aggregator.py:44-47 | one result extends each metric's list by the scores it records under that name |
| Aggregator.ScoresCollectedExactly | cortex_eval/src/core/aggregator.py:39-47 | each metric's list holds exactly the scores the results record under its name, in result order |
| Aggregator.CollectedListsNonEmpty | cortex_eval/src/core/aggregator.py:44-47 | every collected list has at least one score, so its statistics are defined |
| Aggregator.AppendAllNonEmpty | cortex_eval/src/core/aggregator.py:44-47 | appending one result's scores keeps every list non-empty |
| Aggregator.AppendNonEmpty | cortex_eval/src/core/aggregator.py:45-47 | appending one score keeps every list non-empty |
| Aggregator.CollectErrorPersists | cortex_eval/src/core/aggregator.py:40-47 | once a result raises, the later results do not change the outcome |
| Aggregator.StatsErrorPersists | cortex_eval/src/core/aggregator.py:51-58 | once a metric's statistics raise, the later metrics do not change the outcome |
| Aggregator.Numbers | cortex_eval/src/core/aggregator.py:53-57 | the statistics see each score as its number, and a non-numeric score raises TypeError |
| Aggregator.StatsOf | cortex_eval/src/core/aggregator.py:52-58 | statistics exist exactly for a non-empty list of numbers; min ≤ mean, median ≤ max; one score gives std_dev 0 |
| Aggregator.StatsFor | cortex_eval/src/core/aggregator.py:50-58 | there is one statistics entry per metric, under its name, in order, and each is ordered |
| Aggregator.OverallScores | cortex_eval/src/core/aggregator.py:61-62 | there is one overall score per result |
| Aggregator.PassCount | cortex_eval/src/core/aggregator.py:64-65 | the pass count is at most the number of results |
| Aggregator.ResponseTimes | cortex_eval/src/core/aggregator.py:68 | there is one response time per result |
| Aggregator.Categories | cortex_eval/src/core/aggregator.py:71-72 | there is one category per result |
| Aggregator.CountOne | cortex_eval/src/core/aggregator.py:71-72 | counting one category never drops a category already counted |
| Aggregator.CountOneKeys | cortex_eval/src/core/aggregator.py:71-72 | counting a category adds its key to the keys under Python's `==`, and keeps the keys pairwise unequal |
| Aggregator.CountOneCounts | cortex_eval/src/core/aggregator.py:71-72 | counting one category raises by one the count of every key equal to it under Python's `==` (True with 1, False with 0), leaves every other count alone, and raises the total by one |
| Aggregator.CountIsMultiplicity | cortex_eval/src/core/aggregator.py:71-89 | the Counter gives each category the number of categories equal to it under Python's `==`, holds no two equal keys, and its counts sum to the number of results |
| Aggregator.StringOccurrences | cortex_eval/src/core/aggregator.py:71-72 | a string category is equal only to itself, so its count is its number of occurrences |
| Aggregator.TrueAndOneShareAKey | cortex_eval/src/core/aggregator.py:71-72 | `True` and `1.0` are counted under one key, the first one seen, and so are `0.0` and `False`, while the string '0' is a key of its own |
| Aggregator.AllHashableCounts | cortex_eval/src/core/aggregator.py:71-72 | a Counter over hashable categories does not raise |
| Aggregator.Ratio | cortex_eval/src/core/aggregator.py:81 | a count out of a total lies in [0, 1] |
| Aggregator.RateBounds | cortex_eval/src/core/aggregator.py:81 | a count out of a larger total lies in [0, 1] |
| Aggregator.EmptyInputZeroReport | cortex_eval/src/core/aggregator.py:28-36 | no results give the fixed report with zero tests, no metrics, and a zero mean score and pass rate |
| Aggregator.ReportParts | cortex_eval/src/core/aggregator.py:60-90 | a report for non-empty results is assembled from the overall scores, pass count, response times and category counts |
| Aggregator.CategoryCountsSumToTotal | cortex_eval/src/core/aggregator.py:71-89 | total_tests is the number of results, the category counts sum to it, and 'unknown' counts the results whose test case has no category |
| Aggregator.MissingCategoryIsUnknown | cortex_eval/src/core/aggregator.py:71 | a test case without a category is counted under 'unknown' |
| Aggregator.CategoryAt | cortex_eval/src/core/aggregator.py:71 | each result's category is its test case's 'category', or 'unknown' |
| Aggregator.PassRateInUnitInterval | cortex_eval/src/core/aggregator.py:64-81 | the pass count is at most the number of results, and the pass rate is their ratio, in [0, 1] |
| Aggregator.OverallPassFigures | cortex_eval/src/core/aggregator.py:80-81 | the overall figures report the pass count and the pass count over the number of results |
| Aggregator.MissingOverallScoreIsZero | cortex_eval/src/core/aggregator.py:61-62 | an evaluation without an overall score contributes 0 |
| Aggregator.MissingResponseTimeIsZero | cortex_eval/src/core/aggregator.py:68 | a result without a response time contributes 0 ms |
| Aggregator.NumbersSnoc | cortex_eval/src/core/aggregator.py:53-57 | one more numeric score extends the numbers by its value |
| Aggregator.HalfPassingOverall | cortex_eval/src/core/aggregator.py:77-81 | overall scores 1, 1, 0, 0 with two passes give a mean score of 0.5 and a pass rate of 0.5 |
| Aggregator.HalfPassingExample | cortex_eval/src/core/aggregator.py:18-90 | four results, two passing with score 1 and two failing with score 0, aggregate to a mean score of 0.5 and a pass rate of 0.5 |
| Loader.FirstMissing | cortex_eval/src/dataset/loader.py:76-80 | for a dict, the reported field is the first required field the dict lacks, and none is reported exactly when it has all three |
| Loader.ValidateTestCase | cortex_eval/src/dataset/loader.py:63-90 | a dict passes exactly when it has id, question and ground_truth; then it is returned itself, normalised in place; otherwise ValueError and the dict is unchanged; a non-dict raises what `in` raises on it |
| Loader.LoadDataset | cortex_eval/src/dataset/loader.py:42-61 | a document that is not a list raises ValueError; otherwise the result is the valid cases in order, themselves, normalised, or ValueError when none is valid, or the first non-ValueError error, after which no later case is touched |
| Loader.KeepValidCases | cortex_eval/src/dataset/loader.py:48-54 | the loop keeps the cases that pass validation, in order, skips those that raise ValueError, stops at any other error, and normalises exactly the cases it visited |
| Loader.VisitCase | cortex_eval/src/dataset/loader.py:50-52 | validating one case changes that case only |
| Loader.Snapshots | cortex_eval/src/dataset/loader.py:49 | the contents of every case, one per case |
| Loader.KeptStep | cortex_eval/src/dataset/loader.py:50-54 | one more case is kept when valid, skipped on ValueError, and ends the loop with any other error |
| Loader.OtherCaseRaises | cortex_eval/src/dataset/loader.py:78-80 | a case that is not a dict never validates |
| Loader.KeptErrorPersists | cortex_eval/src/dataset/loader.py:49-54 | once a case raises a non-ValueError error, the later cases do not change the outcome |
| Loader.StopsAt | cortex_eval/src/dataset/loader.py:49-54 | when the loop stops at case i, exactly the prefixes up to i complete |
| Loader.StoppedAt | cortex_eval/src/dataset/loader.py:49-54 | when the loop stops at case i, a prefix of length j completes exactly when j ≤ i |
| Loader.EveryPrefixOk | cortex_eval/src/dataset/loader.py:49-54 | a loop that completes completed every prefix |
| Loader.KeptPrefixOk | cortex_eval/src/dataset/loader.py:49-54 | a loop that completes completed the prefix of length j |
| Loader.DictValidation | cortex_eval/src/dataset/loader.py:76-80 | a dict validates exactly when it has the three required fields, and otherwise raises ValueError |
| Loader.ScalarCaseIsFatal | cortex_eval/src/dataset/loader.py:79 | a null, boolean or number case raises TypeError, which ends the load instead of being skipped |
| Loader.StringCaseWithoutId | cortex_eval/src/dataset/loader.py:79-80 | a string case is searched as a substring: one without "id" in it raises the ValueError for 'id' and is skipped |
| Loader.StringCaseWithAllNames | cortex_eval/src/dataset/loader.py:79-83 | a string case containing all three field names passes the check and then raises TypeError at `test_case['id']` |
| Loader.KeptAreTheValidCases | cortex_eval/src/dataset/loader.py:48-54 | the kept indices increase and are exactly those of the cases that validate |
| Loader.NormalisedId | cortex_eval/src/dataset/loader.py:82-84 | a string id is kept, any other id becomes its `str()` |
| Loader.NormalisedContext | cortex_eval/src/dataset/loader.py:86-88 | a dict context is kept, any other context becomes `{}`, and a missing one stays missing |
| Loader.NormalisedKeepsTheRest | cortex_eval/src/dataset/loader.py:82-90 | no other field changes, and no key is added or removed |
| Loader.NormalisedIdempotent | cortex_eval/src/dataset/loader.py:82-90 | normalising twice is the same as normalising once |
| Validator.ValidIffMeaningful | cortex_eval/src/dataset/validator.py:30-46 | a dict test case never raises, and is valid exactly when it has a ground truth that is a string with a non-whitespace character, a non-empty list or dict, true, or a non-zero number |
| Validator.MissingGroundTruthInvalid | cortex_eval/src/dataset/validator.py:30-32 | a test case without 'ground_truth' is invalid |
| Validator.BlankGroundTruthInvalid | cortex_eval/src/dataset/validator.py:37-39 | a ground truth made only of whitespace is invalid |
| Validator.NonEmptyListValid | cortex_eval/src/dataset/validator.py:37-46 | a non-empty list ground truth is valid |
| Validator.NonDictTestCaseRaises | cortex_eval/src/dataset/validator.py:30-34 | a test case that is not a dict raises: TypeError, except that a list or string not containing 'ground_truth' passes the `in` test and raises AttributeError at `.get` |
| Validator.ValidateDataset | cortex_eval/src/dataset/validator.py:48-65 | the loop returns exactly the filtered dataset of the specification, or the first error |
| Validator.ValidCasesErrorPersists | cortex_eval/src/dataset/validator.py:60-62 | once a case raises, the later cases do not change the outcome |
| Validator.ValidCasesAreTheValidOnes | cortex_eval/src/dataset/validator.py:58-65 | the result is a subsequence of the dataset, in order, holding exactly the cases whose ground truth is valid |
| Validator.ValidCasesItemOk | cortex_eval/src/dataset/validator.py:60-61 | when the filter completes, validating every case completed |
| Validator.SubsequenceOfLonger | cortex_eval/src/dataset/validator.py:60-62 | appending to the dataset keeps the kept cases a subsequence |
| Validator.SubsequenceDropLast | cortex_eval/src/dataset/validator.py:60-62 | dropping the last kept case keeps a subsequence |
| Validator.ValidationReport | cortex_eval/src/dataset/validator.py:67-94 | the loop returns exactly the report of the specification, or the first error |
| Validator.EntryLookups | cortex_eval/src/dataset/validator.py:84-88 | an entry holds the test id, the verdict, and no error exactly when valid |
| Validator.ReportEntries | cortex_eval/src/dataset/validator.py:80-88 | there is one report entry per test case |
| Validator.ReportEntriesErrorPersists | cortex_eval/src/dataset/validator.py:80-88 | once a case raises, the later cases do not change the outcome |
| Validator.EntryDescribesCase | cortex_eval/src/dataset/validator.py:80-88 | entry i carries case i's id (or 'unknown'), its verdict, and an error exactly when the case is invalid |
| Validator.ReportCountsValidCases | cortex_eval/src/dataset/validator.py:90-94 | the report's total is the dataset's length and its valid count is the length of what `validate_dataset` returns |
| MetricFactory.BuiltinNamed | src/metrics/metric_factory.py:39-55 | a built-in metric is selected only by its own type name |
| MetricFactory.CreateMetric | src/metrics/metric_factory.py:23-71 | a metric is created exactly for the six built-in names and 'custom', with `threshold` defaulting to 0.5; any other type raises ValueError naming it |
| MetricFactory.BuiltinNamesSelectTheirKind | src/metrics/metric_factory.py:37-55 | each built-in name selects its own metric, carrying the given threshold |
| MetricFactory.ThresholdDefaultsToHalf | src/metrics/metric_factory.py:37 | a metric created without a threshold has threshold 0.5 |
| MetricFactory.CustomDefaults | src/metrics/metric_factory.py:57-68 | a custom metric without name, criteria or evaluation_params gets 'Custom Metric', the default criteria and [actual output, expected output] |
| MetricFactory.CustomMetricExample | tests/unit/test_metric_factory.py:25-35 | the custom metric of the unit test keeps its name 'Test Metric' and threshold 0.6 |
| MetricFactory.UnknownTypeRaises | tests/unit/test_metric_factory.py:53-56 | 'invalid_type', or a type that is not a string, raises ValueError |
| MetricFactory.CreateMetricCall | src/metrics/metric_factory.py:88 | a config key named `cls` or `metric_type` collides with the method's own parameters and raises TypeError; any other config is passed on as keyword arguments |
| MetricFactory.Step | src/metrics/metric_factory.py:87-88 | a config without 'type' raises KeyError('type') |
| MetricFactory.CreateAll | src/metrics/metric_factory.py:84-90 | a completed run creates one metric per config |
| MetricFactory.CreateMetrics | src/metrics/metric_factory.py:73-90 | the loop returns the metrics of the specification or its first error; each config it reached lost its 'type' key in place, and the rest are untouched |
| MetricFactory.PopTypeAt | src/metrics/metric_factory.py:87 | `config.pop("type")` returns the type and removes it from that config only, or raises KeyError and changes nothing |
| MetricFactory.RemoveAbsent | src/metrics/metric_factory.py:87 | removing a key that is not there changes nothing |
| MetricFactory.ErrorPersists | src/metrics/metric_factory.py:86-88 | once a config raises, the later configs do not change the outcome |
| MetricFactory.PrefixOk | src/metrics/metric_factory.py:86-88 | a completed run completed every prefix |
| MetricFactory.CreateAllStep | src/metrics/metric_factory.py:86-88 | one more config appends its metric, or ends the run with its error |
| MetricFactory.Reached | src/metrics/metric_factory.py:86-88 | the number of configs the loop popped is at most their count, and all of them in a completed run |
| MetricFactory.ReachedIffEarlierOk | src/metrics/metric_factory.py:86-88 | config j is reached exactly when the configs before it all succeeded |
| MetricFactory.ReachedAtFailure | src/metrics/metric_factory.py:86-88 | when config i fails, exactly the first i + 1 configs were reached |
| MetricFactory.OneMetricPerConfig | tests/unit/test_metric_factory.py:37-51 | in a completed run, metric k is what config k alone creates |
| Registry.Names | src/clients/client_factory.py:46 | `list(registry.keys())` lists each entry's name, in insertion order |
| Registry.Find | src/clients/client_factory.py:45-48 | a name is found exactly when it is registered, and the class found is the one stored under it |
| Registry.Put | src/clients/client_factory.py:28 | storing under a name keeps the entry count or adds one |
| Registry.PutFind | src/clients/client_factory.py:28 | after storing `cls` under a name, that name finds `cls` and every other name finds what it found before |
| Registry.PutNames | src/clients/client_factory.py:28 | re-registering a name keeps its place, and a new name is listed last |
| Registry.Created | src/clients/client_factory.py:45-48 | creation succeeds exactly for a registered name and yields its class; otherwise ValueError names the type and lists the registered names |
| Registry.Registered | src/clients/client_factory.py:25-28 | registration raises TypeError exactly when the class does not derive from the base, and otherwise stores it under the name |
| Registry.CreatedAfterPut | src/clients/client_factory.py:25-48 | after a registration, the new name creates the new class and every other name creates what it did before |
| Registry.Instantiate | src/clients/client_factory.py:48 | `cls(**kwargs)` succeeds exactly when the class is not abstract and its `__init__` binds the keywords, keeping class and keywords; otherwise TypeError |
| Registry.CreatedInstance | src/clients/client_factory.py:45-48 | an unregistered name raises ValueError listing the registered names; a registered one instantiates its class with the keywords |
| Registry.AbstractBaseRegistersButCannotBeCreated | src/clients/client_factory.py:25-48 | the abstract base passes the subclass check and is stored, but creating it raises TypeError |
| EvaluatorFactory.EvaluatorFactory.constructor | src/evaluation/evaluator_factory.py:12-14 | the registry starts with only 'deepeval' |
| EvaluatorFactory.EvaluatorFactory.RegisterEvaluator | src/evaluation/evaluator_factory.py:16-28 | a class not derived from BaseEvaluator raises TypeError and leaves the registry as it was; otherwise it is stored under the name |
| EvaluatorFactory.EvaluatorFactory.CreateEvaluator | src/evaluation/evaluator_factory.py:30-48 | a registered name instantiates its class with the keyword arguments, raising TypeError when they do not fit; any other name raises ValueError listing the registered names |
| EvaluatorFactory.InitialEvaluatorRegistry | src/evaluation/evaluator_factory.py:12-48 | initially only 'deepeval' can be created, and any other name is refused with the list ['deepeval'] |
| EvaluatorFactory.DeepEvalTakesNoArguments | src/evaluation/deepeval_evaluator.py:12-15 | 'deepeval' has no `__init__` of its own, so it is created exactly when no keyword is given, and any keyword raises TypeError |
| ClientFactory.ClientFactory.constructor | src/clients/client_factory.py:12-14 | the registry starts with only 'rolai' |
| ClientFactory.ClientFactory.RegisterClient | src/clients/client_factory.py:16-28 | a class not derived from BaseClient raises TypeError and leaves the registry as it was; otherwise it is stored under the name |
| ClientFactory.ClientFactory.CreateClient | src/clients/client_factory.py:30-48 | a registered name instantiates its class with the keyword arguments, raising TypeError when they do not fit; any other name raises ValueError listing the registered names |
| ClientFactory.InitialClientRegistry | src/clients/client_factory.py:12-48 | initially only 'rolai' can be created, and any other name is refused with the list ['rolai'] |
| ClientFactory.RolaiNeedsItsThreeArguments | src/clients/rolai_client.py:13 | 'rolai' is created exactly when the keywords are base_url, organization_id and auth_token, all of them and no other; otherwise TypeError |
| ClientFactory.RolaiWithoutArgumentsRaises | src/clients/rolai_client.py:13 | `create_client('rolai')` without keywords raises TypeError |
| Analyze.FailureLogged | src/cli/analyze.py:67 | formatting the failure warning succeeds exactly when the record has `test_case['name']` and the metric has a `score` |
| Analyze.AllPassed | src/cli/analyze.py:63-68 | every metric inspected has a 'passed' key, and the record passes exactly when every metric's `passed` is truthy |
| Analyze.TallyResults | src/cli/analyze.py:61-71 | each record adds one to the total, and the passed count grows by at most the number of records |
| Analyze.TallyFiles | src/cli/analyze.py:50-71 | the passed count never exceeds the total |
| Analyze.Verdict | src/cli/analyze.py:44-76 | no result files, or files holding no records, give False; otherwise the verdict is defined exactly when every file was counted |
| Analyze.CheckTest | src/cli/analyze.py:63-71 | the loop over one record's metrics computes exactly its pass verdict of the specification, or the first error |
| Analyze.TallyFile | src/cli/analyze.py:61-71 | the loop over one file's records computes exactly its counters, or the first error |
| Analyze.AnalyzeResults | src/cli/analyze.py:30-93 | the function returns exactly the verdict of the specification, or the first error |
| Analyze.AllPassedErrorPersists | src/cli/analyze.py:65-68 | once a metric raises, the later metrics do not change the outcome |
| Analyze.TallyResultsErrorPersists | src/cli/analyze.py:61-71 | once a record raises, the later records do not change the outcome |
| Analyze.TallyFilesErrorPersists | src/cli/analyze.py:54-71 | once a file raises, the later files do not change the outcome |
| Analyze.EmptyMetricsPass | src/cli/analyze.py:63-71 | a record with no metrics counts as passed |
| Analyze.NonePassedFails | src/cli/analyze.py:66-68 | a metric recorded with `passed: None` fails its record |
| Analyze.VerdictIsPassRate | src/cli/analyze.py:78-86 | with at least one record, the verdict is passed/total ≥ threshold |
| Analyze.ZeroThresholdPasses | src/cli/analyze.py:78-86 | a threshold of 0 passes any run that has a record |
| Analyze.FullThresholdNeedsEveryTest | src/cli/analyze.py:78-86 | a threshold of 1 passes exactly when every record passed |
| Analyze.RateBounds | src/cli/analyze.py:78 | the pass rate is non-negative, and it reaches 1 exactly when every record passed |
| Analyze.ScaledBelow | src/cli/analyze.py:78 | fewer passes than records give a rate below 1 |
| Config.PlaceholderName | cortex_eval/main.py:56-57 | the enclosed name is what lies between '${' and '}' |
| Config.ProcessEnvVars | cortex_eval/main.py:55-66 | a placeholder string becomes the environment value of its name; other strings and scalars are returned unchanged; a dict keeps exactly its keys and a list its length |
| Config.ChildrenProcessed | cortex_eval/main.py:59-62 | every value of a dict and every item of a list is processed in turn, in place order |
| Config.ValueAt | cortex_eval/main.py:60 | a dict's value is smaller than the dict, so the recursion ends |
| Config.UnchangedWithoutPlaceholders | cortex_eval/main.py:55-64 | a tree without placeholder strings comes back unchanged |
| Config.NoReexpansion | cortex_eval/main.py:56-58 | a substituted value that itself looks like '${B}' is not expanded again |
| Config.UnsetVariableIsEmpty | cortex_eval/main.py:58 | an unset variable becomes the empty string |
| Config.AdapterSettings | cortex_eval/src/adapters/chatbot.py:11-23 | an adapter's constructor reads `config['api_url']` then `config['api_key']`: both present gives their values; a missing one raises KeyError naming the first missing; a config that is not a dict raises TypeError |
| Config.GetAdapter | cortex_eval/main.py:70-82 | an adapter exists exactly for 'chatbot' or 'rag' with a config holding api_url and api_key, and it keeps the config and both settings; a missing setting raises its KeyError; an unhashable type raises TypeError and any other type ValueError |
| Config.ServiceWithoutSectionRaises | cortex_eval/main.py:131 | a service without a configuration section gets `{}`, so creating its adapter raises KeyError('api_url') |
| Config.CliServicesWithoutAdapter | cortex_eval/main.py:72-82 | of the four services the command line accepts (line 214), 'chatbot' and 'rag' get an adapter exactly when their config holds both settings, and 'voice' and 'translation' have none |
| ResultHandler.WithJsonSuffix | src/utils/result_handler.py:34-35 | the name ends in '.json'; a name already ending so is kept, any other gets exactly '.json' appended |
| ResultHandler.WithJsonSuffixIdempotent | src/utils/result_handler.py:34-35 | applying the rule twice is the same as once |
| ResultHandler.ResultFilename | src/utils/result_handler.py:29-35 | a missing or empty name becomes 'evaluation_results_' + timestamp + '.json', and any name used ends in '.json' |
| ResultHandler.SaveResults | src/utils/result_handler.py:13-47 | the path is the output directory joined with that name, and the document has exactly the keys 'timestamp' and 'results', holding the time and the results |
| ResultHandler.EndsWithTransitive | src/utils/result_handler.py:34-35 | a suffix of a suffix is a suffix |
| Export.ResponseText | cortex_eval/src/reporting/export.py:198-219 | the text is `text` when that key is present, else `answer`, else `content`, else `message['content']` when both are present, else ""; key presence decides, not truthiness |
| Export.PresenceNotTruthiness | cortex_eval/src/reporting/export.py:209-210 | for {'text': '', 'answer': 'x'} the export gives '' while the metrics score 'x' |
| Export.MetricColumn | cortex_eval/src/reporting/export.py:84 | a metric's column is 'metric_' followed by its name |
| Export.MetricColumns | cortex_eval/src/reporting/export.py:84 | there is one metric column per metric of the first result, in its order |
| Export.Columns | cortex_eval/src/reporting/export.py:72-85 | the header is the seven base columns followed by the metric columns of the first result |
| Export.Row | cortex_eval/src/reporting/export.py:92-108 | a row holds only the base columns and the metric columns of its own result |
| Export.BaseRowKeys | cortex_eval/src/reporting/export.py:96-104 | the base part of a row has exactly the seven base columns, in order |
| Export.AddMetrics | cortex_eval/src/reporting/export.py:107-108 | adding the metric scores adds a column for every metric and no other key |
| Export.Record | cortex_eval/src/reporting/export.py:110 | `writerow` writes one value per column, and only when every key of the row is a column |
| Export.WriteRows | cortex_eval/src/reporting/export.py:91-110 | no more records are written than there are results, and all of them when no row fails |
| Export.RecordsInOrder | cortex_eval/src/reporting/export.py:91-110 | record i is what result i writes |
| Export.WriteRowsStops | cortex_eval/src/reporting/export.py:91-116 | once a row fails, the later results do not change what was written |
| Export.ExportedCsv | cortex_eval/src/reporting/export.py:51-116 | no results give "" and no file; a file's header is the first result's columns; a non-empty returned path means every result was written |
| Export.ExportToCsv | cortex_eval/src/reporting/export.py:51-116 | the method returns exactly the export of the specification |
| Export.RowDefaults | cortex_eval/src/reporting/export.py:96-104 | an empty result gives test_id 'unknown', an empty question, ground truth and response, time 0, not passed and score 0 |
| Export.SameMetricsFit | cortex_eval/src/reporting/export.py:84-108 | a result whose metrics are among the first result's fits the header |
| Export.MetricColumnListed | cortex_eval/src/reporting/export.py:84-85 | every metric of the first result has its column in the header |
| Export.NewMetricAborts | cortex_eval/src/reporting/export.py:88-116 | a result with a metric the first one lacks makes `writerow` raise, so the export returns "" |
| Scraper.MapKeys | scrape_deepeval_docs.py:99-162 | the keys of the folder map, one per entry, in declaration order |
| Scraper.SectionsAreMapKeys | scrape_deepeval_docs.py:33-162 | the sections to scrape are exactly the folder map's keys, in the same order, so every section has a folder |
| Scraper.FolderOf | scrape_deepeval_docs.py:321-325 | a path that holds no key of the map gets the folder "" |
| Scraper.FirstMatchingKey | scrape_deepeval_docs.py:321-325 | the folder is the value of the first key, in declaration order, that occurs in the path |
| Scraper.ShadowedFolderUnused | scrape_deepeval_docs.py:321-325 | a folder whose every key begins with an earlier key is never chosen |
| Scraper.VulnerabilityKeys | scrape_deepeval_docs.py:144-157 | every key mapped to 'red-teaming/vulnerabilities' comes after 'red-teaming-vulnerabilities' and begins with it |
| Scraper.VulnerabilitiesFolderUnused | scrape_deepeval_docs.py:321-325 | no path resolves to 'red-teaming/vulnerabilities': the vulnerability pages all land in 'red-teaming' |
| Scraper.PrefixIsSubstring | scrape_deepeval_docs.py:323 | a prefix of a key occurs wherever the key does |
| Scraper.FolderOfSubfolder | scrape_deepeval_docs.py:321-325 | when every folder name is relative and has no trailing '/', so is the folder chosen |
| Scraper.FolderNamesAreSubfolders | scrape_deepeval_docs.py:99-162 | every folder of the map is "" or relative with no trailing '/' |
| Scraper.DropLeadingSlashes | scrape_deepeval_docs.py:318 | `lstrip('/')` removes exactly the leading '/' characters |
| Scraper.DropTrailingSlashes | scrape_deepeval_docs.py:318 | `rstrip('/')` removes exactly the trailing '/' characters |
| Scraper.LastSegment | scrape_deepeval_docs.py:318 | `split('/')[-1]` is the part after the last '/', or the whole text when it has none |
| Scraper.FileNameOfPage | scrape_deepeval_docs.py:328 | the file name is the page name with every '-' turned into '_', followed by '.md' |
| Scraper.PageFileName | scrape_deepeval_docs.py:317-328 | the file name of any URL path holds no '/' and ends in '.md' |
| Scraper.FilePathLayout | scrape_deepeval_docs.py:330-333 | with a folder the path is 'deepeval-docs/folder/name', without one 'deepeval-docs/name' |
| Scraper.FileForLayout | scrape_deepeval_docs.py:315-333 | a page's file is the output directory, then the folder of its first matching key when that is not "", then its file name |
| Scraper.UnmappedPageAtRoot | scrape_deepeval_docs.py:321-333 | a path that holds no key is saved directly under 'deepeval-docs' |
| Scraper.FilenameFromUrl | scrape_deepeval_docs.py:315-333 | the loop with its `break` computes exactly the file of the specification |
| Scraper.DocLink | scrape_deepeval_docs.py:278-282 | an href is kept exactly when it begins with '/docs/' and removing every '/docs/' leaves a non-empty text that does not begin with '#'; that text is the link |
| Scraper.DocLinks | scrape_deepeval_docs.py:275-283 | there are never more links than anchors |
| Scraper.ExtractDocLinks | scrape_deepeval_docs.py:273-283 | a missing element gives no links; otherwise the loop gives exactly the links of its anchors |
| Scraper.DocLinksMember | scrape_deepeval_docs.py:277-282 | a link is extracted exactly when some anchor yields it |
| Scraper.DocLinksAppend | scrape_deepeval_docs.py:277-282 | links come out in anchor order |
| Scraper.DocLinkExamples | scrape_deepeval_docs.py:279-282 | duplicates are kept, every '/docs/' is removed, and '/docs/', '/docs/#top' and '/blog/docs/a' give no link |
| Scraper.NewlineRun | scrape_deepeval_docs.py:205 | the run of newlines at the start of the text, and no longer |
| Scraper.CollapseNewlines | scrape_deepeval_docs.py:205 | the collapse never lengthens the text and keeps a first character that is not a newline |
| Scraper.NoTripleNewlineIsNotSubstring | scrape_deepeval_docs.py:205 | having no three newlines in a row is the same as '\n\n\n' not occurring |
| Scraper.NoTripleInSuffix | scrape_deepeval_docs.py:205 | a suffix of text without three newlines in a row has none either |
| Scraper.NoTripleAfterChar | scrape_deepeval_docs.py:205 | a character other than a newline in front keeps text free of three newlines in a row |
| Scraper.NoTripleAfterNewlines | scrape_deepeval_docs.py:205 | one or two newlines in front of such text that does not begin with a newline keep it so |
| Scraper.CollapsedHasNoTriple | scrape_deepeval_docs.py:205 | the collapsed text has no three newlines in a row |
| Scraper.CollapseKeepsText | scrape_deepeval_docs.py:205 | text without three newlines in a row is unchanged |
| Scraper.CollapseIdempotent | scrape_deepeval_docs.py:205 | collapsing twice is the same as collapsing once |
| Scraper.CollapseExamples | scrape_deepeval_docs.py:205 | four newlines become two, and two stay two |
| Scraper.SpaceRun | scrape_deepeval_docs.py:235 | the run of whitespace from a position, and no longer |
| Scraper.FirstSiteSuffix | scrape_deepeval_docs.py:235 | the leftmost position where the site-name pattern (whitespace, a bar, the rest of the line) matches, or none |
| Scraper.PageTitle | scrape_deepeval_docs.py:225-238 | an `<h1>` gives its stripped text; with neither tag the title is 'Untitled' |
| Scraper.TitleWithoutBarKept | scrape_deepeval_docs.py:235 | a title without a bar character is unchanged |
| Scraper.SingleLineTitleTrimmed | scrape_deepeval_docs.py:235 | from a single-line title, the first bar character onward goes, together with the whitespace right before it |
| Scraper.SiteNameRemoved | scrape_deepeval_docs.py:231-236 | a single-line title made of a page name, space, bar, space and a site name becomes the page name |
| Values.Index | cortex_eval/src/core/evaluator.py:37-39 | `container[key]` succeeds exactly for a dict holding the key and yields its value; a dict without it raises KeyError |
| Values.Contains | cortex_eval/src/dataset/loader.py:79 | `key in container` answers for a dict, a list or a string and raises for anything else; for a dict it is key presence |
| Values.DictGet | cortex_eval/src/core/aggregator.py:41-42 | `.get(key, default)` succeeds exactly on a dict |
| Values.Iterate | src/cli/analyze.py:61 | iterating succeeds exactly on a list, a string or a dict, and a list yields its items |
| Values.Set | cortex_eval/src/core/evaluator.py:69 | after `d[key] = v`, the key holds `v` and every other key holds what it did |
| Values.Remove | src/metrics/metric_factory.py:87 | after removing a key it is absent, every other key holds what it did, and nothing is added |
| Values.Dict.Pop | src/metrics/metric_factory.py:87 | `d.pop(key)` returns the value and removes the key, or raises KeyError and changes nothing |
| Values.Dict.SetItem | cortex_eval/src/dataset/loader.py:84-88 | `d[key] = v` updates the dict in place |
| Paths.Join | src/utils/result_handler.py:38 | `os.path.join` ends with the component, adds a '/' only when needed, and an absolute component replaces the path |
| Text.Lower | cortex_eval/src/metrics/relevance.py:89-90 | lowering maps each character, keeping the length |
| Text.Words | cortex_eval/src/metrics/relevance.py:110 | `str.split()` yields non-empty words that begin with a non-space |
| Text.StripEmptyIffAllSpace | cortex_eval/src/dataset/validator.py:37 | a string strips to nothing exactly when it is all whitespace |

## Left out

- File and network I/O, logging, directory scans and `os.makedirs` are not modelled, because they are effects outside the logic. Reading a file is replaced by the parsed JSON value it yields. Writing a file is replaced by the value written.
- JSON and YAML parsing, `datetime.now()` and `urlparse` are not modelled, because they are library calls. Their results are parameters: parsed values, timestamp strings and the URL path.
- BLEU, ROUGE-L, sentence embeddings, Python's `re` engine, `statistics.stdev` and `str()` of a value are parameters, because they are library code. Only the properties the pipeline relies on are stated about them: scores in [0, 1], and a match being a pure function of pattern and text.
- Floating-point rounding is not modelled, because scores are `real`s. Python `int` and `float` are both numbers in `Values.Value`.
- `str.lower` is not modelled beyond ASCII letters, because Unicode case mapping is a library table.
- CSV quoting and text encoding in `export_to_csv`, and the JSON and markdown exports, are not modelled. The model yields the rows, the cells and their order, which is what the exporter decides.
- HTML fetching, BeautifulSoup parsing and the html2text conversion of the scraper are not modelled, because they are library code. The pure steps around them (folder choice, file names, link filtering, blank-line collapse, title trim) are modelled. `scrape_page`, `discover_links`, `create_directory_structure` and `main` are left out as I/O drivers.
- `ResultHandler.load_results` is not modelled, because it only reads and parses a file.
- The registries of `EvaluatorFactory` and `ClientFactory` are class-level dicts. Each is modelled as the field of one object, because Dafny has no class-level state.
- `issubclass` with an argument that is not a class is not modelled; it would raise `TypeError`. A class is its name, its ancestors' names, the keyword parameters of its `__init__` and whether it is abstract.
- The body of a registered class's `__init__` is not modelled beyond binding the keyword arguments, because it only stores them or builds library objects. Positional arguments are not modelled, because the factories pass keywords only.
- Loader.LoadDataset: assumes that no dict object occurs twice in the parsed list, because a JSON parser never returns shared objects. Aliased cases are not modelled.
- MetricFactory.CreateMetrics: assumes that the metric configs are distinct dict objects, for the same reason. Aliased configs are not modelled.
- The adapters' HTTP calls and their Authorization header text, the HTTP clients, the test executor, the database layer, the dashboard, the deepeval wrappers, `src/cli/evaluate.py`, `src/cli/review.py`, `run_tests` and the argument parsing of `main.py` are not part of this model. They are I/O drivers and wrappers around library code.
- Aggregator.StatsOf: `std_dev` is the `stdev` parameter whenever there are two or more scores. Only its value for a single score, 0, is fixed by the model.
- The relevance section's `use_embedding_similarity` flag and the model loading are not read by the model; whether the embedding path is taken is the `Embedding` value the caller passes, `Enabled` standing for a truthy flag and a loaded model.
- Safety.SafetyMetric.Create: a float rules path makes `os.stat` raise TypeError, but ints and floats are one number type here, so a numeric path is handed to `read` like an integer file descriptor.
- Evaluator.Construct: for the same reason, a float rules path in the safety section does not raise TypeError in the model.
- Performance.ScoreInUnitInterval: stated for the default configuration (time threshold 1000 ms), because a negative configured threshold makes the unclamped time score negative.
