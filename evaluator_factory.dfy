/**
 * `EvaluatorFactory`: the registry of evaluator implementations. Python keeps
 * the dict in a class attribute shared by every caller; here it is the state
 * of one `EvaluatorFactory` object.
 */
module EvaluatorFactory {
  import opened Values
  import opened Registry

  /** The class every registered evaluator must derive from. */
  const BaseEvaluator: string := "BaseEvaluator"

  /** The one implementation registered from the start. It implements every
      abstract method of `BaseEvaluator` and defines no `__init__`, so it
      takes no arguments. */
  const DeepEvalEvaluator: PyClass :=
    PyClass("DeepEvalEvaluator", [BaseEvaluator, "ABC", "object"], Signature([], [], false), false)

  /** `_evaluators` as the class body defines it. */
  const InitialEvaluators: Entries := [("deepeval", DeepEvalEvaluator)]

  class EvaluatorFactory {
    var evaluators: Entries

    constructor ()
      ensures evaluators == InitialEvaluators
    {
      evaluators := InitialEvaluators;
    }

    /** `register_evaluator(name, evaluator_class)`. */
    method RegisterEvaluator(name: string, evaluatorClass: PyClass) returns (r: Result<()>)
      modifies this
      ensures r.Err? <==> !evaluatorClass.IsSubclassOf(BaseEvaluator)
      ensures r.Err? ==> r.error == TypeError && evaluators == old(evaluators)
      ensures r.Ok? ==> evaluators == Put(old(evaluators), name, evaluatorClass)
    {
      var registered := Registered(evaluators, BaseEvaluator, name, evaluatorClass);
      if registered.Err? {
        return Err(registered.error);
      }
      evaluators := registered.value;
      r := Ok(());
    }

    /** `create_evaluator(evaluator_type, **kwargs)`. */
    method CreateEvaluator(evaluatorType: string, kwargs: Fields) returns (r: Result<Instance>)
      ensures evaluatorType !in Names(evaluators) ==> r == Err(UnknownRegisteredType(evaluatorType, Names(evaluators)))
      ensures evaluatorType in Names(evaluators) ==> r == Instantiate(Find(evaluators, evaluatorType).value, kwargs)
    {
      r := CreatedInstance(evaluators, evaluatorType, kwargs);
    }
  }

  /** At first only 'deepeval' is known: it gives `DeepEvalEvaluator`, and any
      other name raises the `ValueError` listing ['deepeval']. */
  lemma InitialEvaluatorRegistry(evaluatorType: string)
    ensures Created(InitialEvaluators, evaluatorType) ==
      if evaluatorType == "deepeval" then Ok(DeepEvalEvaluator)
      else Err(UnknownRegisteredType(evaluatorType, ["deepeval"]))
  {
    assert Names(InitialEvaluators) == ["deepeval"];
  }

  /** `create_evaluator('deepeval', **kwargs)` builds an evaluator exactly
      when no keyword argument is given; any argument raises TypeError. */
  lemma DeepEvalTakesNoArguments(kwargs: Fields)
    ensures CreatedInstance(InitialEvaluators, "deepeval", kwargs).Ok? <==> |kwargs| == 0
    ensures CreatedInstance(InitialEvaluators, "deepeval", kwargs).Err? ==>
      CreatedInstance(InitialEvaluators, "deepeval", kwargs).error == TypeError
  {
    assert Names(InitialEvaluators) == ["deepeval"];
    if |kwargs| > 0 {
      assert Keys(kwargs)[0] in Keys(kwargs);
    }
  }
}
