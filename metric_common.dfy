/**
 * What the four metrics share: the response-text lookup, the clamp into
 * [0, 1], and arithmetic on configuration and response values.
 */
module MetricCommon {
  import opened Values

  /** Python's `min` and `max` on two numbers: the first argument wins ties. */
  function Min(a: real, b: real): (r: real)
    ensures r <= a && r <= b && (r == a || r == b)
  {
    if b < a then b else a
  }

  function Max(a: real, b: real): (r: real)
    ensures r >= a && r >= b && (r == a || r == b)
  {
    if b > a then b else a
  }

  /** `max(0.0, min(1.0, x))`: the nearest point of [0, 1]. */
  function Clamp(x: real): (r: real)
    ensures 0.0 <= r <= 1.0
    ensures 0.0 <= x <= 1.0 ==> r == x
    ensures x < 0.0 ==> r == 0.0
    ensures x > 1.0 ==> r == 1.0
  {
    Max(0.0, Min(1.0, x))
  }

  /** A value used in arithmetic or an ordering comparison: numbers and
      booleans take part, anything else raises TypeError. */
  function Number(v: Value): (r: Result<real>)
    ensures r.Ok? <==> v.Num? || v.Bool?
    ensures v.Num? ==> r == Ok(v.n)
    ensures r.Err? ==> r.error == TypeError
  {
    match AsReal(v)
    case Some(x) => Ok(x)
    case None => Err(TypeError)
  }

  /** The text a metric scores: `response.get('text', '')`, and when that is
      falsy and the response has an `answer` key, `response.get('answer', '')`.
      Only a dict response has `.get`. */
  function MetricResponseText(response: Value): (r: Result<Value>)
    ensures r.Err? <==> !response.Obj?
    ensures r.Err? ==> r.error == AttributeError
    ensures r.Ok? && Truthy(Get(response.fields, "text", Str(""))) ==> r.value == Get(response.fields, "text", Str(""))
    ensures r.Ok? && !Truthy(Get(response.fields, "text", Str(""))) && HasKey(response.fields, "answer") ==>
      r.value == Get(response.fields, "answer", Str(""))
  {
    if !response.Obj? then Err(AttributeError)
    else
      var text := Get(response.fields, "text", Str(""));
      if !Truthy(text) && Lookup(response.fields, "answer").Some? then Ok(Get(response.fields, "answer", Str("")))
      else Ok(text)
  }

  /** The text is truthy exactly when `text` or `answer` holds a truthy value. */
  lemma TextTruthyIff(fields: Fields)
    ensures Truthy(MetricResponseText(Obj(fields)).value) <==>
      Truthy(Get(fields, "text", Str(""))) || Truthy(Get(fields, "answer", Str("")))
  {
  }
}
