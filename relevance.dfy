/**
 * The relevance metric: cosine similarity of sentence embeddings when an
 * embedding model is loaded, otherwise the share of the question's keywords
 * that occur in the response.
 */
module Relevance {
  import opened Text
  import opened Values
  import opened MetricCommon

  /** The embedding model in use. `Enabled` stands for a metric whose
      section's `use_embedding_similarity` was truthy and whose model loaded;
      `Disabled` for every other metric (flag falsy, package missing, import
      failed). `similarity(question, text)` is the cosine similarity of the
      two encodings, or None when encoding or the arithmetic raised. */
  datatype Embedding = Disabled | Enabled(similarity: (Value, Value) -> Option<real>)

  const Stopwords: set<string> :=
    {"the", "a", "an", "in", "on", "at", "of", "to", "for", "with", "by", "about",
     "and", "or", "is", "are", "was", "were"}

  /** A word is kept as a keyword when it is longer than two characters and
      its lower-case form is not a stopword. */
  predicate IsKeyword(word: string)
  {
    Lower(word) !in Stopwords && |word| > 2
  }

  /** The keywords among `words`, in order and with repetitions. */
  function KeywordsOf(words: seq<string>): (keywords: seq<string>)
    ensures |keywords| <= |words|
  {
    if |words| == 0 then []
    else (if IsKeyword(words[0]) then [words[0]] else []) + KeywordsOf(words[1..])
  }

  /** `_extract_keywords(question)`. */
  function Keywords(question: string): seq<string>
  {
    KeywordsOf(Words(question))
  }

  /** How many keywords, lower-cased, occur in `haystack` as substrings. */
  function CountFound(keywords: seq<string>, haystack: string): (n: nat)
    ensures n <= |keywords|
  {
    if |keywords| == 0 then 0
    else (if IsSubstring(Lower(keywords[0]), haystack) then 1 else 0) + CountFound(keywords[1..], haystack)
  }

  /** The keyword-overlap score for a non-empty keyword list. */
  function KeywordScore(keywords: seq<string>, text: string): real
    requires |keywords| > 0
  {
    Min(1.0, CountFound(keywords, Lower(text)) as real / |keywords| as real)
  }

  /** `calculate(response, ground_truth, test_case)`. */
  function RelevanceScore(response: Value, testCase: Value, embedding: Embedding): Result<real>
  {
    var text :- MetricResponseText(response);
    if !testCase.Obj? then Err(AttributeError)
    else if !Truthy(text) then Ok(0.0)
    else
      var question := Get(testCase.fields, "question", Str(""));
      if !Truthy(question) then Ok(0.0)
      else if embedding.Enabled? && embedding.similarity(question, text).Some? then
        Ok(Clamp(embedding.similarity(question, text).value))
      else if !question.Str? then Err(AttributeError)
      else
        var keywords := Keywords(question.s);
        if |keywords| == 0 then Ok(0.5)
        else if !text.Str? then Err(AttributeError)
        else Ok(KeywordScore(keywords, text.s))
  }

  /** A word is a keyword of the list exactly when it is in the list and passes the filter. */
  lemma {:induction false} KeywordsOfIff(words: seq<string>, w: string)
    ensures w in KeywordsOf(words) <==> w in words && IsKeyword(w)
  {
    if |words| > 0 {
      KeywordsOfIff(words[1..], w);
      assert words == [words[0]] + words[1..];
    }
  }

  /** Filtering commutes with concatenation: order and repetitions are kept. */
  lemma {:induction false} KeywordsOfConcat(a: seq<string>, b: seq<string>)
    ensures KeywordsOf(a + b) == KeywordsOf(a) + KeywordsOf(b)
  {
    if |a| == 0 {
      assert a + b == b;
    } else {
      assert (a + b)[1..] == a[1..] + b;
      KeywordsOfConcat(a[1..], b);
    }
  }

  /** All keywords are found exactly when the count reaches the keyword count. */
  lemma {:induction false} AllFoundIff(keywords: seq<string>, haystack: string)
    ensures CountFound(keywords, haystack) == |keywords| <==>
      forall i | 0 <= i < |keywords| :: IsSubstring(Lower(keywords[i]), haystack)
  {
    if |keywords| > 0 {
      AllFoundIff(keywords[1..], haystack);
      if forall i | 0 <= i < |keywords[1..]| :: IsSubstring(Lower(keywords[1..][i]), haystack) {
        assert forall i | 1 <= i < |keywords| :: keywords[i] == keywords[1..][i - 1];
      }
    }
  }

  /** None is found exactly when the count is zero. */
  lemma {:induction false} NoneFoundIff(keywords: seq<string>, haystack: string)
    ensures CountFound(keywords, haystack) == 0 <==>
      forall i | 0 <= i < |keywords| :: !IsSubstring(Lower(keywords[i]), haystack)
  {
    if |keywords| > 0 {
      NoneFoundIff(keywords[1..], haystack);
      if forall i | 0 <= i < |keywords[1..]| :: !IsSubstring(Lower(keywords[1..][i]), haystack) {
        assert forall i | 1 <= i < |keywords| :: keywords[i] == keywords[1..][i - 1];
      }
    }
  }

  /** The keyword score is the fraction of keywords found; it is 1 exactly
      when every keyword occurs and 0 exactly when none does. */
  lemma KeywordScoreMeaning(keywords: seq<string>, text: string)
    requires |keywords| > 0
    ensures KeywordScore(keywords, text) == CountFound(keywords, Lower(text)) as real / |keywords| as real
    ensures 0.0 <= KeywordScore(keywords, text) <= 1.0
    ensures KeywordScore(keywords, text) == 1.0 <==>
      forall i | 0 <= i < |keywords| :: IsSubstring(Lower(keywords[i]), Lower(text))
    ensures KeywordScore(keywords, text) == 0.0 <==>
      forall i | 0 <= i < |keywords| :: !IsSubstring(Lower(keywords[i]), Lower(text))
  {
    AllFoundIff(keywords, Lower(text));
    NoneFoundIff(keywords, Lower(text));
    FractionBounds(CountFound(keywords, Lower(text)), |keywords|);
  }

  lemma FractionBounds(count: nat, total: nat)
    requires 0 < total && count <= total
    ensures 0.0 <= count as real / total as real <= 1.0
    ensures count as real / total as real == 1.0 <==> count == total
    ensures count as real / total as real == 0.0 <==> count == 0
  {
    var q := count as real / total as real;
    assert q * total as real == count as real;
  }

  /** An empty response scores 0. */
  lemma EmptyResponseScoresZero(response: Fields, testCase: Fields, embedding: Embedding)
    requires !Truthy(Get(response, "text", Str(""))) && !Truthy(Get(response, "answer", Str("")))
    ensures RelevanceScore(Obj(response), Obj(testCase), embedding) == Ok(0.0)
  {
    TextTruthyIff(response);
  }

  /** An empty or missing question scores 0. */
  lemma MissingQuestionScoresZero(response: Fields, testCase: Fields, embedding: Embedding)
    requires !Truthy(Get(testCase, "question", Str("")))
    ensures RelevanceScore(Obj(response), Obj(testCase), embedding) == Ok(0.0)
  {
  }

  /** Without an embedding score, a question with no keywords scores 0.5. */
  lemma NoKeywordsScoresHalf(response: Value, testCase: Fields, question: string)
    requires MetricResponseText(response).Ok? && Truthy(MetricResponseText(response).value)
    requires Get(testCase, "question", Str("")) == Str(question) && question != ""
    requires Keywords(question) == []
    ensures RelevanceScore(response, Obj(testCase), Disabled) == Ok(0.5)
  {
  }

  /** A failing embedding computation falls through to the keyword score. */
  lemma EmbeddingFailureFallsThrough(response: Value, testCase: Fields, similarity: (Value, Value) -> Option<real>)
    requires MetricResponseText(response).Ok?
    requires similarity(Get(testCase, "question", Str("")), MetricResponseText(response).value) == None
    ensures RelevanceScore(response, Obj(testCase), Enabled(similarity)) == RelevanceScore(response, Obj(testCase), Disabled)
  {
  }

  /** Every relevance score lies in [0, 1]. */
  lemma ScoreInUnitInterval(response: Value, testCase: Value, embedding: Embedding)
    requires RelevanceScore(response, testCase, embedding).Ok?
    ensures 0.0 <= RelevanceScore(response, testCase, embedding).value <= 1.0
  {
    var text := MetricResponseText(response).value;
    if testCase.Obj? && Truthy(text) {
      var question := Get(testCase.fields, "question", Str(""));
      if Truthy(question) && question.Str? && text.Str? && |Keywords(question.s)| > 0 {
        KeywordScoreMeaning(Keywords(question.s), text.s);
      }
    }
  }

  /** Keywords match as substrings, not whole words: "art" is found in "heart". */
  lemma SubstringNotWholeWord()
    ensures KeywordScore(["art"], "heart") == 1.0
  {
    assert Lower("heart") == "heart";
    assert Lower("art") == "art";
    assert "art" <= "heart"[2..];
    assert IsSubstring("art", "heart"[2..]);
    assert IsSubstring("art", "heart"[1..]);
  }
}
