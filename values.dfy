/**
 * JSON-like values as the Python code handles them, with the dictionary and
 * container operations it uses (`d.get(k, default)`, `k in x`, `x[k]`,
 * `for e in x`, truthiness) and the exceptions those operations raise.
 *
 * A Python dict is an association list in insertion order, which is the
 * order `dict.items()` and `dict.keys()` report.
 */
module Values {
  import opened Text

  /** The Python exceptions the modelled code raises or lets escape. */
  datatype Error =
    | KeyError(key: string)
    | TypeError
    | AttributeError
    | ZeroDivisionError
    | ValueError(message: string)
      /** `statistics.StatisticsError`, raised for the mean or median of no data. */
    | StatisticsError
      /** `ValueError("Unknown metric type: ...")`, naming the offending type value. */
    | UnknownMetricType(metricType: Value)
      /** `ValueError("Unknown ... type: X. Available types: [...]")` from a class registry. */
    | UnknownRegisteredType(requested: string, available: seq<string>)
      /** `ValueError("Unknown service type: ...")` from the adapter lookup. */
    | UnknownServiceType(serviceType: Value)

  /** The errors Python classes as `ValueError` or a subclass of it. */
  predicate IsValueError(e: Error)
  {
    e.ValueError? || e.StatisticsError? || e.UnknownMetricType? || e.UnknownRegisteredType? || e.UnknownServiceType?
  }

  datatype Result<+T> = Ok(value: T) | Err(error: Error) {
    predicate IsFailure() { Err? }
    function PropagateFailure<U>(): Result<U> requires Err? { Err(error) }
    function Extract(): T requires Ok? { value }
  }

  datatype Option<+T> = None | Some(value: T) {
    function GetOr(default: T): T {
      match this
      case Some(v) => v
      case None => default
    }
  }

  type Fields = seq<(string, Value)>

  datatype Value =
    | Null
    | Bool(b: bool)
    | Num(n: real)
    | Str(s: string)
    | List(items: seq<Value>)
    | Obj(fields: Fields)

  /** Python truthiness: `None`, `False`, `0`, `""`, `[]` and `{}` are false. */
  predicate Truthy(v: Value)
  {
    match v
    case Null => false
    case Bool(b) => b
    case Num(n) => n != 0.0
    case Str(s) => s != ""
    case List(items) => items != []
    case Obj(fields) => fields != []
  }

  /** The keys of a dict, in order. */
  function Keys(fields: Fields): (ks: seq<string>)
    ensures |ks| == |fields|
    ensures forall i | 0 <= i < |fields| :: ks[i] == fields[i].0
  {
    if |fields| == 0 then [] else [fields[0].0] + Keys(fields[1..])
  }

  /** `d[key]` if present: the value of the first entry with that key. */
  function Lookup(fields: Fields, key: string): Option<Value>
  {
    if |fields| == 0 then None
    else if fields[0].0 == key then Some(fields[0].1)
    else Lookup(fields[1..], key)
  }

  /** The value of the first entry with the key. */
  lemma {:induction false} LookupFirst(fields: Fields, key: string, i: nat)
    requires i < |fields| && fields[i].0 == key
    requires forall j | 0 <= j < i :: fields[j].0 != key
    ensures Lookup(fields, key) == Some(fields[i].1)
    decreases i
  {
    if i > 0 {
      assert fields[1..][i - 1] == fields[i];
      assert forall j | 0 <= j < i - 1 :: fields[1..][j] == fields[j + 1];
      LookupFirst(fields[1..], key, i - 1);
    }
  }

  /** `key in d` on a dict. */
  predicate HasKey(fields: Fields, key: string)
  {
    Lookup(fields, key).Some?
  }

  /** A key is present exactly when it is one of the dict's keys, and what
      `d[key]` finds is an entry of the dict. */
  lemma {:induction false} HasKeyIffInKeys(fields: Fields, key: string)
    ensures HasKey(fields, key) <==> key in Keys(fields)
    ensures HasKey(fields, key) ==> (key, Lookup(fields, key).value) in fields
  {
    if |fields| > 0 && fields[0].0 != key {
      HasKeyIffInKeys(fields[1..], key);
      assert Keys(fields) == [fields[0].0] + Keys(fields[1..]);
    }
  }

  /** `d.get(key, default)` on a dict. */
  function Get(fields: Fields, key: string, default: Value): Value
  {
    Lookup(fields, key).GetOr(default)
  }

  /** `d[key] = v`: an existing key keeps its position, a new key goes last. */
  function Set(fields: Fields, key: string, v: Value): (r: Fields)
    ensures Lookup(r, key) == Some(v)
    ensures forall k | k != key :: Lookup(r, k) == Lookup(fields, k)
  {
    if |fields| == 0 then [(key, v)]
    else if fields[0].0 == key then [(key, v)] + fields[1..]
    else [fields[0]] + Set(fields[1..], key, v)
  }

  lemma {:induction false} SetKeys(fields: Fields, key: string, v: Value)
    ensures Keys(Set(fields, key, v)) == if key in Keys(fields) then Keys(fields) else Keys(fields) + [key]
  {
    if |fields| > 0 && fields[0].0 != key {
      SetKeys(fields[1..], key, v);
    }
  }

  /** Setting a key the dict does not have appends it. */
  lemma {:induction false} SetNewKey(fields: Fields, key: string, v: Value)
    requires key !in Keys(fields)
    ensures Set(fields, key, v) == fields + [(key, v)]
  {
    if |fields| > 0 {
      assert Keys(fields)[0] == fields[0].0;
      assert key !in Keys(fields[1..]) by {
        forall i | 0 <= i < |fields| - 1 ensures Keys(fields[1..])[i] != key {
          assert Keys(fields[1..])[i] == Keys(fields)[i + 1];
        }
      }
      SetNewKey(fields[1..], key, v);
      assert fields == [fields[0]] + fields[1..];
    }
  }

  /** The dict without its entries for `key`. */
  function Remove(fields: Fields, key: string): (r: Fields)
    ensures Lookup(r, key) == None
    ensures forall k | k != key :: Lookup(r, k) == Lookup(fields, k)
    ensures |r| <= |fields|
  {
    if |fields| == 0 then []
    else if fields[0].0 == key then Remove(fields[1..], key)
    else [fields[0]] + Remove(fields[1..], key)
  }

  /** `d.get(key, default)` on an arbitrary value: only dicts have `.get`. */
  function DictGet(v: Value, key: string, default: Value): (r: Result<Value>)
    ensures r.Ok? <==> v.Obj?
  {
    if v.Obj? then Ok(Get(v.fields, key, default)) else Err(AttributeError)
  }

  /** `key in container` for a string key. */
  function Contains(container: Value, key: string): (r: Result<bool>)
    ensures r.Err? <==> !(container.Obj? || container.List? || container.Str?)
    ensures container.Obj? ==> r == Ok(HasKey(container.fields, key))
  {
    match container
    case Obj(fields) => Ok(Lookup(fields, key).Some?)
    case List(items) => Ok(Str(key) in items)
    case Str(s) => Ok(IsSubstring(key, s))
    case _ => Err(TypeError)
  }

  /** `container[key]` for a string key: only dicts can be indexed by a string. */
  function Index(container: Value, key: string): (r: Result<Value>)
    ensures r.Ok? <==> container.Obj? && HasKey(container.fields, key)
    ensures r.Ok? ==> Lookup(container.fields, key) == Some(r.value)
    ensures container.Obj? && !HasKey(container.fields, key) ==> r == Err(KeyError(key))
  {
    if container.Obj? then
      match Lookup(container.fields, key)
      case Some(v) => Ok(v)
      case None => Err(KeyError(key))
    else Err(TypeError)
  }

  /** The elements `for e in v` visits: list items, the one-character strings of
      a string, the keys of a dict; other values are not iterable. */
  function Iterate(v: Value): (r: Result<seq<Value>>)
    ensures r.Err? <==> !(v.List? || v.Str? || v.Obj?)
    ensures v.List? ==> r == Ok(v.items)
  {
    match v
    case List(items) => Ok(items)
    case Str(s) => Ok(seq(|s|, i requires 0 <= i < |s| => Str([s[i]])))
    case Obj(fields) => Ok(seq(|fields|, i requires 0 <= i < |fields| => Str(fields[i].0)))
    case _ => Err(TypeError)
  }

  /** The value arithmetic sees: numbers, and booleans as 1 and 0. */
  function AsReal(v: Value): (r: Option<real>)
    ensures r.Some? <==> v.Num? || v.Bool?
  {
    match v
    case Num(n) => Some(n)
    case Bool(b) => Some(if b then 1.0 else 0.0)
    case _ => None
  }

  /** A Python dict object that the code mutates in place. */
  class Dict {
    var fields: Fields

    constructor (fields: Fields)
      ensures this.fields == fields
    {
      this.fields := fields;
    }

    /** `d[key] = v`. */
    method SetItem(key: string, v: Value)
      modifies this
      ensures fields == Set(old(fields), key, v)
    {
      fields := Set(fields, key, v);
    }

    /** `d.pop(key)` without a default. */
    method Pop(key: string) returns (r: Result<Value>)
      modifies this
      ensures r.Ok? <==> HasKey(old(fields), key)
      ensures r.Ok? ==> Some(r.value) == Lookup(old(fields), key) && fields == Remove(old(fields), key)
      ensures r.Err? ==> r.error == KeyError(key) && fields == old(fields)
    {
      match Lookup(fields, key)
      case Some(v) =>
        fields := Remove(fields, key);
        r := Ok(v);
      case None =>
        r := Err(KeyError(key));
    }
  }
}
