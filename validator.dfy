/**
 * The ground-truth validator: whether a test case carries a usable ground
 * truth, the order-preserving filter of a dataset down to such cases, and the
 * validation report (one entry per case plus the totals). Writing the report
 * to a file is not modelled; the report is returned as a value.
 */
module Validator {
  import opened Text
  import opened Values

  /** `validate_ground_truth(test_case)`. The test case is any JSON value: a
      string or list answers `'ground_truth' in test_case` too, but cannot be
      indexed by a string, and the warning for a missing key calls
      `test_case.get`, which only a dict has. */
  function ValidateGroundTruth(testCase: Value): Result<bool>
  {
    var present :- Contains(testCase, "ground_truth");
    if !present then
      if testCase.Obj? then Ok(false) else Err(AttributeError)
    else
      var groundTruth :- Index(testCase, "ground_truth");
      // an empty list is falsy, so the separate empty-list check never decides
      Ok(Truthy(groundTruth) && !(groundTruth.Str? && Strip(groundTruth.s) == ""))
  }

  /** What makes a ground truth usable, stated without `strip`: a string with
      a non-whitespace character, a non-empty list or dict, a true boolean or
      a non-zero number. */
  predicate Meaningful(groundTruth: Value)
  {
    match groundTruth
    case Null => false
    case Bool(b) => b
    case Num(n) => n != 0.0
    case Str(s) => exists i | 0 <= i < |s| :: !IsSpace(s[i])
    case List(items) => |items| > 0
    case Obj(fields) => |fields| > 0
  }

  /** A dict test case is valid exactly when it has a meaningful ground truth;
      validation of a dict never raises. */
  lemma ValidIffMeaningful(testCase: Fields)
    ensures ValidateGroundTruth(Obj(testCase)).Ok?
    ensures ValidateGroundTruth(Obj(testCase)).value
        <==> HasKey(testCase, "ground_truth") && Meaningful(Lookup(testCase, "ground_truth").value)
  {
    match Lookup(testCase, "ground_truth")
    case None =>
    case Some(groundTruth) =>
      if groundTruth.Str? {
        StripEmptyIffAllSpace(groundTruth.s);
      }
  }

  /** A test case without a `ground_truth` key is invalid. */
  lemma MissingGroundTruthInvalid(testCase: Fields)
    requires !HasKey(testCase, "ground_truth")
    ensures ValidateGroundTruth(Obj(testCase)) == Ok(false)
  {
  }

  /** A whitespace-only ground truth is invalid, and so is the empty string. */
  lemma BlankGroundTruthInvalid(testCase: Fields, s: string)
    requires Lookup(testCase, "ground_truth") == Some(Str(s))
    requires AllSpace(s)
    ensures ValidateGroundTruth(Obj(testCase)) == Ok(false)
  {
    StripEmptyIffAllSpace(s);
  }

  /** Any non-empty list is a valid ground truth, even one holding only an
      empty string. */
  lemma NonEmptyListValid(testCase: Fields, items: seq<Value>)
    requires Lookup(testCase, "ground_truth") == Some(List(items))
    requires |items| > 0
    ensures ValidateGroundTruth(Obj(testCase)) == Ok(true)
  {
  }

  /** A scalar test case cannot answer `in`: TypeError. A list or string
      test case mentioning `ground_truth` cannot be indexed by it: TypeError. */
  lemma NonDictTestCaseRaises(testCase: Value)
    requires !testCase.Obj?
    ensures ValidateGroundTruth(testCase).Err?
    ensures ValidateGroundTruth(testCase).error == TypeError
         || (ValidateGroundTruth(testCase).error == AttributeError && Contains(testCase, "ground_truth") == Ok(false))
  {
  }

  /** The cases of `dataset` with a valid ground truth, in order:
      the list `validate_dataset` returns. */
  function ValidCases(dataset: seq<Value>): Result<seq<Value>>
  {
    if |dataset| == 0 then Ok([])
    else
      var earlier :- ValidCases(dataset[..|dataset| - 1]);
      var valid :- ValidateGroundTruth(dataset[|dataset| - 1]);
      Ok(if valid then earlier + [dataset[|dataset| - 1]] else earlier)
  }

  /** `sub` is `s` with some elements left out, the rest in order. */
  predicate Subsequence<T(==)>(sub: seq<T>, s: seq<T>)
    decreases |s|
  {
    if |sub| == 0 then true
    else if |s| == 0 then false
    else if sub[|sub| - 1] == s[|s| - 1] then Subsequence(sub[..|sub| - 1], s[..|s| - 1])
    else Subsequence(sub, s[..|s| - 1])
  }

  lemma {:induction false} SubsequenceOfLonger<T>(sub: seq<T>, s: seq<T>, x: T)
    requires Subsequence(sub, s)
    ensures Subsequence(sub, s + [x])
    decreases |s|, 1
  {
    assert (s + [x])[..|s|] == s;
    if |sub| > 0 && sub[|sub| - 1] == x {
      SubsequenceDropLast(sub, s);
    }
  }

  lemma {:induction false} SubsequenceDropLast<T>(sub: seq<T>, s: seq<T>)
    requires |sub| > 0 && Subsequence(sub, s)
    ensures Subsequence(sub[..|sub| - 1], s)
    decreases |s|, 0
  {
    var init := s[..|s| - 1];
    assert init + [s[|s| - 1]] == s;
    if sub[|sub| - 1] == s[|s| - 1] {
      SubsequenceOfLonger(sub[..|sub| - 1], init, s[|s| - 1]);
    } else {
      SubsequenceDropLast(sub, init);
      SubsequenceOfLonger(sub[..|sub| - 1], init, s[|s| - 1]);
    }
  }

  /** Once validating a case raises, the whole filter raises that error. */
  lemma {:induction false} ValidCasesErrorPersists(dataset: seq<Value>, k: nat)
    requires k <= |dataset|
    requires ValidCases(dataset[..k]).Err?
    ensures ValidCases(dataset) == ValidCases(dataset[..k])
    decreases |dataset| - k
  {
    if k < |dataset| {
      assert dataset[..k + 1][..k] == dataset[..k];
      ValidCasesErrorPersists(dataset, k + 1);
    } else {
      assert dataset[..k] == dataset;
    }
  }

  /** The filtered list is an order-preserving subsequence of the dataset,
      and a case is in it exactly when it is in the dataset and valid. */
  lemma {:induction false} ValidCasesAreTheValidOnes(dataset: seq<Value>)
    requires ValidCases(dataset).Ok?
    ensures Subsequence(ValidCases(dataset).value, dataset)
    ensures forall c :: c in ValidCases(dataset).value <==> c in dataset && ValidateGroundTruth(c) == Ok(true)
  {
    if |dataset| > 0 {
      var prefix, last := dataset[..|dataset| - 1], dataset[|dataset| - 1];
      ValidCasesAreTheValidOnes(prefix);
      assert dataset == prefix + [last];
      var earlier := ValidCases(prefix).value;
      if ValidateGroundTruth(last).value {
        SubsequenceOfLonger(earlier, prefix, last);
        assert (earlier + [last])[..|earlier|] == earlier;
      } else {
        SubsequenceOfLonger(earlier, prefix, last);
      }
      forall c | c in prefix ensures ValidateGroundTruth(c).Ok? {
        var j :| 0 <= j < |prefix| && prefix[j] == c;
        ValidCasesItemOk(prefix, j);
      }
    }
  }

  /** When the filter succeeds, every case validated without raising. */
  lemma {:induction false} ValidCasesItemOk(dataset: seq<Value>, j: nat)
    requires j < |dataset|
    requires ValidCases(dataset).Ok?
    ensures ValidateGroundTruth(dataset[j]).Ok?
  {
    if j < |dataset| - 1 {
      ValidCasesItemOk(dataset[..|dataset| - 1], j);
    }
  }

  /** `validate_dataset(dataset)`. */
  method ValidateDataset(dataset: seq<Value>) returns (r: Result<seq<Value>>)
    ensures r == ValidCases(dataset)
  {
    var valid: seq<Value> := [];
    var i := 0;
    while i < |dataset|
      invariant 0 <= i <= |dataset|
      invariant ValidCases(dataset[..i]) == Ok(valid)
    {
      assert dataset[..i + 1][..i] == dataset[..i];
      var ok := ValidateGroundTruth(dataset[i]);
      if ok.Err? {
        ValidCasesErrorPersists(dataset, i + 1);
        return Err(ok.error);
      }
      if ok.value {
        valid := valid + [dataset[i]];
      }
      i := i + 1;
    }
    assert dataset[..i] == dataset;
    return Ok(valid);
  }

  /** The message recorded for an invalid case. */
  const InvalidMessage := "Invalid or missing ground truth"

  /** One entry of the report: `{'test_id': ..., 'valid': ..., 'error': ...}`.
      The id is read first, so a non-dict case raises AttributeError there. */
  function ReportEntry(testCase: Value): Result<Value>
  {
    var testId :- DictGet(testCase, "id", Str("unknown"));
    var valid :- ValidateGroundTruth(testCase);
    Ok(Obj(EntryFields(testId, valid)))
  }

  function EntryFields(testId: Value, valid: bool): Fields
  {
    [("test_id", testId), ("valid", Bool(valid)), ("error", if valid then Null else Str(InvalidMessage))]
  }

  lemma EntryLookups(testId: Value, valid: bool)
    ensures Lookup(EntryFields(testId, valid), "test_id") == Some(testId)
    ensures Lookup(EntryFields(testId, valid), "valid") == Some(Bool(valid))
    ensures Lookup(EntryFields(testId, valid), "error") == Some(if valid then Null else Str(InvalidMessage))
  {
    var fields := EntryFields(testId, valid);
    assert "test_id" != "valid" && "test_id" != "error" && "valid" != "error";
    assert fields[1..] == [fields[1], fields[2]] && fields[1..][1..] == [fields[2]];
    assert Lookup(fields, "error") == Lookup(fields[1..], "error") == Lookup(fields[1..][1..], "error");
  }

  function ReportEntries(dataset: seq<Value>): (r: Result<seq<Value>>)
    ensures r.Ok? ==> |r.value| == |dataset|
  {
    if |dataset| == 0 then Ok([])
    else
      var earlier :- ReportEntries(dataset[..|dataset| - 1]);
      var entry :- ReportEntry(dataset[|dataset| - 1]);
      Ok(earlier + [entry])
  }

  /** `sum(1 for result in validation_results if result['valid'])`. */
  function CountValid(entries: seq<Value>): Result<nat>
  {
    if |entries| == 0 then Ok(0)
    else
      var earlier :- CountValid(entries[..|entries| - 1]);
      var valid :- Index(entries[|entries| - 1], "valid");
      Ok(earlier + if Truthy(valid) then 1 else 0)
  }

  /** The report `export_validation_report` writes. */
  function Report(dataset: seq<Value>, entries: seq<Value>): Result<Value>
  {
    var validCount :- CountValid(entries);
    Ok(Obj([("total_test_cases", Num(|dataset| as real)),
            ("valid_test_cases", Num(validCount as real)),
            ("results", List(entries))]))
  }

  /** The report-building loop of `export_validation_report`. */
  method ValidationReport(dataset: seq<Value>) returns (r: Result<Value>)
    ensures ReportEntries(dataset).Err? ==> r == Err(ReportEntries(dataset).error)
    ensures ReportEntries(dataset).Ok? ==> r == Report(dataset, ReportEntries(dataset).value)
  {
    var entries: seq<Value> := [];
    var i := 0;
    while i < |dataset|
      invariant 0 <= i <= |dataset|
      invariant ReportEntries(dataset[..i]) == Ok(entries)
    {
      assert dataset[..i + 1][..i] == dataset[..i];
      var entry := ReportEntry(dataset[i]);
      if entry.Err? {
        ReportEntriesErrorPersists(dataset, i + 1);
        return Err(entry.error);
      }
      entries := entries + [entry.value];
      i := i + 1;
    }
    assert dataset[..i] == dataset;
    r := Report(dataset, entries);
  }

  lemma {:induction false} ReportEntriesErrorPersists(dataset: seq<Value>, k: nat)
    requires k <= |dataset|
    requires ReportEntries(dataset[..k]).Err?
    ensures ReportEntries(dataset) == ReportEntries(dataset[..k])
    decreases |dataset| - k
  {
    if k < |dataset| {
      assert dataset[..k + 1][..k] == dataset[..k];
      ReportEntriesErrorPersists(dataset, k + 1);
    } else {
      assert dataset[..k] == dataset;
    }
  }

  /** Entry i of the report describes case i: its id (default `unknown`),
      whether it is valid, and an error that is None exactly when it is. */
  lemma {:induction false} EntryDescribesCase(dataset: seq<Value>, i: nat)
    requires i < |dataset|
    requires ReportEntries(dataset).Ok?
    ensures dataset[i].Obj? && ValidateGroundTruth(dataset[i]).Ok?
    ensures var entry := ReportEntries(dataset).value[i];
      && entry.Obj?
      && Get(entry.fields, "test_id", Null) == Get(dataset[i].fields, "id", Str("unknown"))
      && Get(entry.fields, "valid", Null) == Bool(ValidateGroundTruth(dataset[i]).value)
      && (Get(entry.fields, "error", Str("")) == Null <==> ValidateGroundTruth(dataset[i]).value)
  {
    var entries := ReportEntries(dataset).value;
    if i < |dataset| - 1 {
      EntryDescribesCase(dataset[..|dataset| - 1], i);
      assert entries[i] == ReportEntries(dataset[..|dataset| - 1]).value[i];
    } else {
      assert ReportEntries(dataset[..i]).Ok?;
      assert ReportEntry(dataset[i]).Ok?;
      assert entries[i] == ReportEntry(dataset[i]).value;
      EntryLookups(DictGet(dataset[i], "id", Str("unknown")).value, ValidateGroundTruth(dataset[i]).value);
    }
  }

  /** The report's valid count is the size of the list `validate_dataset`
      returns for the same dataset, and its total is the dataset's length. */
  lemma {:induction false} ReportCountsValidCases(dataset: seq<Value>)
    requires ReportEntries(dataset).Ok?
    ensures ValidCases(dataset).Ok?
    ensures CountValid(ReportEntries(dataset).value).Ok?
    ensures CountValid(ReportEntries(dataset).value).value == |ValidCases(dataset).value|
    ensures Report(dataset, ReportEntries(dataset).value).Ok?
    ensures Report(dataset, ReportEntries(dataset).value).value.fields[0] == ("total_test_cases", Num(|dataset| as real))
  {
    if |dataset| > 0 {
      var prefix := dataset[..|dataset| - 1];
      ReportCountsValidCases(prefix);
      var entries := ReportEntries(dataset).value;
      assert entries[..|entries| - 1] == ReportEntries(prefix).value;
      var last := dataset[|dataset| - 1];
      assert ReportEntry(last).Ok?;
      var valid := ValidateGroundTruth(last).value;
      assert entries[|entries| - 1] == ReportEntry(last).value;
      EntryLookups(DictGet(last, "id", Str("unknown")).value, valid);
      assert Index(entries[|entries| - 1], "valid") == Ok(Bool(valid));
    }
  }
}
