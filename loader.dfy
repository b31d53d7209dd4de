/**
 * The dataset loader after the JSON document has been parsed: the document
 * must be a list; each element is checked for the required fields and, when
 * it has them, normalised in place (a string `id`, a dict `context`); elements
 * that raise ValueError are skipped; and an empty outcome raises ValueError.
 * Reading and parsing the file are not modelled.
 */
module Loader {
  import opened Values

  /** An element of the parsed list: a dict, which the loader may change in
      place, or any other JSON value. */
  datatype Element = DictElement(dict: Dict) | OtherElement(value: Value)

  /** JSON objects are always parsed into `Dict` objects. */
  type Case = e: Element | !(e.OtherElement? && e.value.Obj?) witness OtherElement(Null)

  /** The parsed document: a list of cases, or some other JSON value. */
  datatype Parsed = ListDocument(cases: seq<Case>) | OtherDocument(value: Value)
  type Document = d: Parsed | !(d.OtherDocument? && d.value.List?) witness OtherDocument(Null)

  const RequiredFields: seq<string> := ["id", "question", "ground_truth"]

  function MissingFieldMessage(field: string): string
  {
    "Test case missing required field: " + field
  }

  const NotAListMessage := "Dataset must be a list of test cases"
  const NoValidCasesMessage := "No valid test cases found in dataset"

  /** The first of `required` that `field not in testCase` reports missing. */
  function FirstMissing(testCase: Value, required: seq<string>): (r: Result<Option<string>>)
    ensures testCase.Obj? ==> r.Ok?
    ensures r.Ok? && r.value.Some? ==> r.value.value in required
    ensures testCase.Obj? && r.value.Some? ==> !HasKey(testCase.fields, r.value.value)
    ensures testCase.Obj? ==> (r.value.None? <==> forall f | f in required :: HasKey(testCase.fields, f))
  {
    if |required| == 0 then Ok(None)
    else
      var present :- Contains(testCase, required[0]);
      if !present then Ok(Some(required[0])) else FirstMissing(testCase, required[1..])
  }

  /** What `_validate_test_case` raises for a value, if anything. */
  function Validation(testCase: Value): Result<()>
  {
    var missing :- FirstMissing(testCase, RequiredFields);
    if missing.Some? then Err(ValueError(MissingFieldMessage(missing.value)))
    else
      var _ :- Index(testCase, "id");
      Ok(())
  }

  /** The fields of a dict that has the required fields, after `_validate_test_case`. */
  function Normalised(fields: Fields, str: Value -> string): Fields
  {
    var id := Lookup(fields, "id").GetOr(Null);
    var withId := if id.Str? then fields else Set(fields, "id", Str(str(id)));
    var context := Lookup(withId, "context");
    if context.Some? && !context.value.Obj? then Set(withId, "context", Obj([])) else withId
  }

  predicate HasRequiredFields(fields: Fields)
  {
    forall f | f in RequiredFields :: HasKey(fields, f)
  }

  /** The fields of a dict after `_validate_test_case`, whether it raised or not. */
  function NormaliseIfValid(fields: Fields, str: Value -> string): Fields
  {
    if HasRequiredFields(fields) then Normalised(fields, str) else fields
  }

  /** The value a case stands for. */
  function Snapshot(c: Case): Value
    reads if c.DictElement? then {c.dict} else {}
  {
    if c.DictElement? then Obj(c.dict.fields) else c.value
  }

  function Snapshots(cases: seq<Case>): (r: seq<Value>)
    reads Dicts(cases)
    ensures |r| == |cases|
    ensures forall j | 0 <= j < |cases| :: r[j] == Snapshot(cases[j])
  {
    if |cases| == 0 then [] else Snapshots(cases[..|cases| - 1]) + [Snapshot(cases[|cases| - 1])]
  }

  function Dicts(cases: seq<Case>): set<Dict>
  {
    set c | c in cases && c.DictElement? :: c.dict
  }

  /** No dict object occurs twice in the list, as in every freshly parsed document. */
  predicate DistinctDicts(cases: seq<Case>)
  {
    forall j, k | 0 <= j < k < |cases| && cases[j].DictElement? && cases[k].DictElement? :: cases[j].dict != cases[k].dict
  }

  /** The positions of the cases the loading loop keeps, or the error that
      escapes it: ValueError skips a case, any other error stops the loop. */
  function Kept(snapshots: seq<Value>): Result<seq<nat>>
  {
    if |snapshots| == 0 then Ok([])
    else
      var earlier :- Kept(snapshots[..|snapshots| - 1]);
      match Validation(snapshots[|snapshots| - 1])
      case Ok(_) => Ok(earlier + [|snapshots| - 1])
      case Err(e) => if IsValueError(e) then Ok(earlier) else Err(e)
  }

  /** `_validate_test_case(test_case)`. */
  method ValidateTestCase(c: Case, str: Value -> string) returns (r: Result<Dict>)
    modifies if c.DictElement? then {c.dict} else {}
    ensures c.OtherElement? ==> r == Err(Validation(c.value).error)
    ensures c.DictElement? ==> (r.Ok? <==> HasRequiredFields(old(c.dict.fields)))
    ensures c.DictElement? && r.Ok? ==> r.value == c.dict
    ensures c.DictElement? && r.Err? ==> IsValueError(r.error)
    ensures c.DictElement? ==> c.dict.fields == NormaliseIfValid(old(c.dict.fields), str)
  {
    match c
    case OtherElement(v) =>
      var check := Validation(v);
      OtherCaseRaises(v);
      return Err(check.error);
    case DictElement(d) =>
      var missing := FirstMissing(Obj(d.fields), RequiredFields);
      if missing.value.Some? {
        return Err(ValueError(MissingFieldMessage(missing.value.value)));
      }
      assert "id" in RequiredFields;
      var id := Lookup(d.fields, "id").value;
      if !id.Str? {
        d.SetItem("id", Str(str(id)));
      }
      var context := Lookup(d.fields, "context");
      if context.Some? && !context.value.Obj? {
        d.SetItem("context", Obj([]));
      }
      return Ok(d);
  }

  /** `load_dataset` from the parsed document on. */
  method LoadDataset(document: Document, str: Value -> string) returns (r: Result<seq<Dict>>)
    requires document.ListDocument? ==> DistinctDicts(document.cases)
    modifies if document.ListDocument? then Dicts(document.cases) else {}
    ensures document.OtherDocument? ==> r == Err(ValueError(NotAListMessage))
    ensures document.ListDocument? ==>
      var cases, snapshots := document.cases, old(Snapshots(document.cases));
      && (Kept(snapshots).Err? ==> r == Err(Kept(snapshots).error))
      && (Kept(snapshots) == Ok([]) ==> r == Err(ValueError(NoValidCasesMessage)))
      && (r.Ok? ==> Kept(snapshots).Ok? && |r.value| == |Kept(snapshots).value| > 0
                    && forall k | 0 <= k < |r.value| :: Kept(snapshots).value[k] < |cases|
                                                      && cases[Kept(snapshots).value[k]] == DictElement(r.value[k]))
      && (forall j | 0 <= j < |cases| && cases[j].DictElement? ::
            cases[j].dict.fields == if Kept(snapshots[..j]).Ok? then NormaliseIfValid(snapshots[j].fields, str)
                                    else snapshots[j].fields)
  {
    if document.OtherDocument? {
      return Err(ValueError(NotAListMessage));
    }
    r := KeepValidCases(document.cases, str, Snapshots(document.cases));
    if r.Ok? && |r.value| == 0 {
      return Err(ValueError(NoValidCasesMessage));
    }
  }

  /** The loop of `load_dataset`: each case that passes `_validate_test_case`
      is kept, a case that raises ValueError is skipped, and any other error
      escapes, leaving the later cases unvisited. */
  method KeepValidCases(cases: seq<Case>, str: Value -> string, ghost snapshots: seq<Value>) returns (r: Result<seq<Dict>>)
    requires DistinctDicts(cases)
    requires |snapshots| == |cases|
    requires forall j | 0 <= j < |cases| :: snapshots[j] == if cases[j].DictElement? then Obj(cases[j].dict.fields) else cases[j].value
    modifies Dicts(cases)
    ensures Kept(snapshots).Err? ==> r == Err(Kept(snapshots).error)
    ensures Kept(snapshots).Ok? ==>
      && r.Ok? && |r.value| == |Kept(snapshots).value|
      && forall k | 0 <= k < |r.value| ::
           Kept(snapshots).value[k] < |cases| && cases[Kept(snapshots).value[k]] == DictElement(r.value[k])
    ensures forall j | 0 <= j < |cases| && cases[j].DictElement? ::
      cases[j].dict.fields == if Kept(snapshots[..j]).Ok? then NormaliseIfValid(snapshots[j].fields, str)
                              else snapshots[j].fields
  {
    var valid: seq<Dict> := [];
    ghost var kept: seq<nat> := [];
    var i := 0;
    while i < |cases|
      invariant 0 <= i <= |cases|
      invariant Kept(snapshots[..i]) == Ok(kept)
      invariant |valid| == |kept|
      invariant forall k | 0 <= k < |kept| :: kept[k] < i && cases[kept[k]] == DictElement(valid[k])
      invariant forall j | 0 <= j < |cases| && cases[j].DictElement? ::
        cases[j].dict.fields == if j < i then NormaliseIfValid(old(cases[j].dict.fields), str) else old(cases[j].dict.fields)
    {
      KeptStep(snapshots, i);
      var outcome := VisitCase(cases, i, str);
      if outcome.Err? && !IsValueError(outcome.error) {
        KeptErrorPersists(snapshots, i + 1);
        StopsAt(snapshots, i);
        assert forall j | 0 <= j < |cases| && cases[j].DictElement? ::
          cases[j].dict.fields == if j < i + 1 then NormaliseIfValid(old(cases[j].dict.fields), str) else old(cases[j].dict.fields);
        return Err(outcome.error);
      }
      if outcome.Ok? {
        valid := valid + [outcome.value];
        kept := kept + [i];
      }
      i := i + 1;
    }
    assert snapshots[..i] == snapshots;
    EveryPrefixOk(snapshots);
    return Ok(valid);
  }

  /** `_validate_test_case` on the case at position i, seen from the list:
      only that case's dict may change. */
  method VisitCase(cases: seq<Case>, i: nat, str: Value -> string) returns (r: Result<Dict>)
    requires DistinctDicts(cases) && i < |cases|
    modifies Dicts(cases)
    ensures cases[i].OtherElement? ==> r == Err(Validation(cases[i].value).error)
    ensures cases[i].DictElement? ==> (r.Ok? <==> HasRequiredFields(old(cases[i].dict.fields)))
    ensures cases[i].DictElement? && r.Ok? ==> r.value == cases[i].dict
    ensures cases[i].DictElement? && r.Err? ==> IsValueError(r.error)
    ensures cases[i].DictElement? ==> cases[i].dict.fields == NormaliseIfValid(old(cases[i].dict.fields), str)
    ensures forall j | 0 <= j < |cases| && j != i && cases[j].DictElement? :: cases[j].dict.fields == old(cases[j].dict.fields)
  {
    r := ValidateTestCase(cases[i], str);
  }

  /** One more step of the loading loop. */
  lemma KeptStep(snapshots: seq<Value>, i: nat)
    requires i < |snapshots|
    requires Kept(snapshots[..i]).Ok?
    ensures var earlier, v := Kept(snapshots[..i]).value, snapshots[i];
      Kept(snapshots[..i + 1]) ==
        if v.Obj? then (if HasRequiredFields(v.fields) then Ok(earlier + [i]) else Ok(earlier))
        else if IsValueError(Validation(v).error) then Ok(earlier)
        else Err(Validation(v).error)
  {
    assert snapshots[..i + 1][..i] == snapshots[..i];
    if snapshots[i].Obj? {
      DictValidation(snapshots[i].fields);
    } else {
      OtherCaseRaises(snapshots[i]);
    }
  }

  /** A value that is not a dict never passes `_validate_test_case`. */
  lemma OtherCaseRaises(v: Value)
    requires !v.Obj?
    ensures Validation(v).Err?
  {
  }

  lemma {:induction false} KeptErrorPersists(snapshots: seq<Value>, k: nat)
    requires k <= |snapshots|
    requires Kept(snapshots[..k]).Err?
    ensures Kept(snapshots) == Kept(snapshots[..k])
    decreases |snapshots| - k
  {
    if k < |snapshots| {
      assert snapshots[..k + 1][..k] == snapshots[..k];
      KeptErrorPersists(snapshots, k + 1);
    } else {
      assert snapshots[..k] == snapshots;
    }
  }

  /** When the loop stops at case i, exactly the cases up to i were visited. */
  lemma StopsAt(snapshots: seq<Value>, i: nat)
    requires i < |snapshots|
    requires Kept(snapshots[..i]).Ok? && Kept(snapshots[..i + 1]).Err?
    ensures forall j | 0 <= j <= |snapshots| :: Kept(snapshots[..j]).Ok? <==> j <= i
  {
    forall j | 0 <= j <= |snapshots| ensures Kept(snapshots[..j]).Ok? <==> j <= i {
      StoppedAt(snapshots, i, j);
    }
  }

  /** A run that does not stop visits every case. */
  lemma EveryPrefixOk(snapshots: seq<Value>)
    requires Kept(snapshots).Ok?
    ensures forall j | 0 <= j <= |snapshots| :: Kept(snapshots[..j]).Ok?
  {
    forall j | 0 <= j <= |snapshots| ensures Kept(snapshots[..j]).Ok? {
      KeptPrefixOk(snapshots, j);
    }
  }

  /** When case i is the first to raise an error that is not skipped, exactly
      the cases up to i are visited. */
  lemma StoppedAt(snapshots: seq<Value>, i: nat, j: nat)
    requires i < |snapshots| && j <= |snapshots|
    requires Kept(snapshots[..i]).Ok? && Kept(snapshots[..i + 1]).Err?
    ensures Kept(snapshots[..j]).Ok? <==> j <= i
  {
    if j <= i {
      KeptPrefixOk(snapshots[..i], j);
      assert snapshots[..i][..j] == snapshots[..j];
    } else {
      assert snapshots[..j][..i + 1] == snapshots[..i + 1];
      KeptErrorPersists(snapshots[..j], i + 1);
    }
  }

  lemma {:induction false} KeptPrefixOk(snapshots: seq<Value>, j: nat)
    requires j <= |snapshots|
    requires Kept(snapshots).Ok?
    ensures Kept(snapshots[..j]).Ok?
  {
    if j < |snapshots| {
      var init := snapshots[..|snapshots| - 1];
      KeptPrefixOk(init, j);
      assert init[..j] == snapshots[..j];
    } else {
      assert snapshots[..j] == snapshots;
    }
  }

  /** A dict passes exactly when it has `id`, `question` and `ground_truth`;
      otherwise it raises ValueError naming the first missing one, which the
      loading loop skips. */
  lemma DictValidation(fields: Fields)
    ensures Validation(Obj(fields)).Ok? <==> HasRequiredFields(fields)
    ensures Validation(Obj(fields)).Err? ==> IsValueError(Validation(Obj(fields)).error)
  {
  }

  /** A number, boolean or null in the list is not skipped: `in` on it raises
      TypeError, which ends the loading. */
  lemma ScalarCaseIsFatal(v: Value)
    requires v.Null? || v.Bool? || v.Num?
    ensures Validation(v) == Err(TypeError)
  {
  }

  /** A string case without `id` inside it is skipped. */
  lemma StringCaseWithoutId(s: string)
    requires !Text.IsSubstring("id", s)
    ensures Validation(Str(s)) == Err(ValueError(MissingFieldMessage("id")))
  {
    assert Contains(Str(s), RequiredFields[0]) == Ok(false);
  }

  /** A string case holding all three field names fails when it is indexed by
      `id`, with TypeError, which ends the loading. */
  lemma StringCaseWithAllNames(s: string)
    requires forall f | f in RequiredFields :: Text.IsSubstring(f, s)
    ensures Validation(Str(s)) == Err(TypeError)
  {
    var rest := RequiredFields[1..];
    assert rest == ["question", "ground_truth"] && rest[1..] == ["ground_truth"] && rest[1..][1..] == [];
    assert FirstMissing(Str(s), rest[1..][1..]) == Ok(None);
    assert Text.IsSubstring("ground_truth", s);
    assert FirstMissing(Str(s), rest[1..]) == Ok(None);
    assert Text.IsSubstring("question", s);
    assert FirstMissing(Str(s), rest) == Ok(None);
    assert Text.IsSubstring("id", s);
    assert FirstMissing(Str(s), RequiredFields) == Ok(None);
  }

  /** The kept positions are increasing, and a position is kept exactly when
      its case passes validation. */
  lemma {:induction false} KeptAreTheValidCases(snapshots: seq<Value>)
    requires Kept(snapshots).Ok?
    ensures forall a, b | 0 <= a < b < |Kept(snapshots).value| :: Kept(snapshots).value[a] < Kept(snapshots).value[b]
    ensures forall j: nat :: j in Kept(snapshots).value <==> j < |snapshots| && Validation(snapshots[j]).Ok?
  {
    if |snapshots| > 0 {
      var init := snapshots[..|snapshots| - 1];
      KeptAreTheValidCases(init);
      var earlier := Kept(init).value;
      forall j: nat | j < |init| ensures init[j] == snapshots[j] { }
      forall k | 0 <= k < |earlier| ensures earlier[k] < |init| {
        assert earlier[k] in earlier;
      }
    }
  }

  /** A kept dict ends with a string id: its own if it had one, otherwise
      `str` of the old id. */
  lemma NormalisedId(fields: Fields, str: Value -> string)
    requires HasKey(fields, "id")
    ensures Lookup(Normalised(fields, str), "id").Some?
    ensures var id := Lookup(fields, "id").value;
      Lookup(Normalised(fields, str), "id").value == if id.Str? then id else Str(str(id))
  {
  }

  /** A `context` that is a dict stays, any other `context` becomes `{}`, and
      an absent one stays absent. */
  lemma NormalisedContext(fields: Fields, str: Value -> string)
    ensures var context := Lookup(fields, "context");
      Lookup(Normalised(fields, str), "context") ==
        if context.Some? && !context.value.Obj? then Some(Obj([])) else context
  {
  }

  /** Every other field is untouched, and no key is added or removed. */
  lemma NormalisedKeepsTheRest(fields: Fields, str: Value -> string)
    requires HasKey(fields, "id")
    ensures forall k | k != "id" && k != "context" :: Lookup(Normalised(fields, str), k) == Lookup(fields, k)
    ensures Keys(Normalised(fields, str)) == Keys(fields)
  {
    var id := Lookup(fields, "id").value;
    HasKeyIffInKeys(fields, "id");
    SetKeys(fields, "id", Str(str(id)));
    var withId := if id.Str? then fields else Set(fields, "id", Str(str(id)));
    HasKeyIffInKeys(withId, "context");
    SetKeys(withId, "context", Obj([]));
  }

  /** Normalising a normalised case changes nothing. */
  lemma NormalisedIdempotent(fields: Fields, str: Value -> string)
    requires HasKey(fields, "id")
    ensures Normalised(Normalised(fields, str), str) == Normalised(fields, str)
  {
    NormalisedId(fields, str);
    NormalisedContext(fields, str);
  }
}
