/**
 * The class registries behind `EvaluatorFactory` and `ClientFactory`: a
 * class-level dict from a name to a class, which `register_*` extends after
 * an `issubclass` guard and `create_*` looks up.
 *
 * A class is represented by its name and the names of all its ancestors, so
 * that `issubclass(c, Base)` is `c` being `Base` or having it among them; by
 * the keyword parameters its `__init__` binds; and by whether it still has
 * abstract methods, which Python refuses to instantiate.
 */
module Registry {
  import opened Values

  /** The keyword parameters of a constructor: those without a default, those
      with one, and whether it takes `**kwargs`. A class without its own
      `__init__` inherits `object`'s, which takes none. */
  datatype Signature = Signature(required: seq<string>, optional: seq<string>, anyKeyword: bool)
  {
    /** Whether `__init__(**kwargs)` binds: every keyword is a parameter (or
        `**kwargs` takes it) and every parameter without a default is given. */
    predicate Binds(kwargs: Fields)
    {
      && (forall k | k in Keys(kwargs) :: anyKeyword || k in required || k in optional)
      && (forall p | p in required :: p in Keys(kwargs))
    }
  }

  datatype PyClass = PyClass(name: string, ancestors: seq<string>, init: Signature, isAbstract: bool)
  {
    /** `issubclass(this, base)`. */
    predicate IsSubclassOf(base: string)
    {
      name == base || base in ancestors
    }
  }

  /** A new object: its class and the keyword arguments its `__init__` got. */
  datatype Instance = Instance(cls: PyClass, kwargs: Fields)

  /** `cls(**kwargs)`: TypeError for an abstract class, for an unexpected
      keyword and for a missing argument; otherwise the new object. What the
      body of `__init__` does with the arguments is the class's own. */
  function Instantiate(cls: PyClass, kwargs: Fields): (r: Result<Instance>)
    ensures r.Ok? <==> !cls.isAbstract && cls.init.Binds(kwargs)
    ensures r.Err? ==> r.error == TypeError
    ensures r.Ok? ==> r.value.cls == cls && r.value.kwargs == kwargs
  {
    if cls.isAbstract || !cls.init.Binds(kwargs) then Err(TypeError) else Ok(Instance(cls, kwargs))
  }

  /** A registry dict, as (name, class) entries in insertion order. */
  type Entries = seq<(string, PyClass)>

  /** `list(registry.keys())`. */
  function Names(entries: Entries): (names: seq<string>)
    ensures |names| == |entries|
    ensures forall i | 0 <= i < |entries| :: names[i] == entries[i].0
  {
    if |entries| == 0 then [] else [entries[0].0] + Names(entries[1..])
  }

  /** `registry[name]` when `name in registry`. */
  function Find(entries: Entries, name: string): (r: Option<PyClass>)
    ensures r.Some? <==> name in Names(entries)
    ensures r.Some? ==> (name, r.value) in entries
  {
    if |entries| == 0 then None
    else if entries[0].0 == name then Some(entries[0].1)
    else
      var r := Find(entries[1..], name);
      assert Names(entries) == [entries[0].0] + Names(entries[1..]);
      r
  }

  /** `registry[name] = cls`. */
  function Put(entries: Entries, name: string, cls: PyClass): (r: Entries)
    ensures |r| == |entries| || |r| == |entries| + 1
  {
    if |entries| == 0 then [(name, cls)]
    else if entries[0].0 == name then [(name, cls)] + entries[1..]
    else [entries[0]] + Put(entries[1..], name, cls)
  }

  /** After `registry[name] = cls`, `name` maps to `cls` and every other name
      maps to what it did before. */
  lemma {:induction false} PutFind(entries: Entries, name: string, cls: PyClass, other: string)
    ensures Find(Put(entries, name, cls), other) == if other == name then Some(cls) else Find(entries, other)
  {
    if |entries| > 0 {
      var r := Put(entries, name, cls);
      if entries[0].0 == name {
        assert r[1..] == entries[1..];
      } else {
        PutFind(entries[1..], name, cls, other);
        assert r[1..] == Put(entries[1..], name, cls);
      }
    }
  }

  /** An existing name keeps its place; a new name is added last. */
  lemma {:induction false} PutNames(entries: Entries, name: string, cls: PyClass)
    ensures Names(Put(entries, name, cls)) == if name in Names(entries) then Names(entries) else Names(entries) + [name]
  {
    if |entries| > 0 {
      var r := Put(entries, name, cls);
      var head := [entries[0].0];
      assert Names(entries) == head + Names(entries[1..]);
      if entries[0].0 == name {
        assert r[1..] == entries[1..];
        assert Names(r) == head + Names(entries[1..]);
      } else {
        var rest := Put(entries[1..], name, cls);
        PutNames(entries[1..], name, cls);
        assert r[1..] == rest;
        assert Names(r) == head + Names(rest);
        assert name in Names(entries) <==> name in Names(entries[1..]);
        assert head + (Names(entries[1..]) + [name]) == (head + Names(entries[1..])) + [name];
      }
    }
  }

  /** The class `create_*(name)` instantiates, or the `ValueError` naming the
      unknown type and listing the registered names. */
  function Created(entries: Entries, name: string): (r: Result<PyClass>)
    ensures r.Ok? <==> name in Names(entries)
    ensures r.Ok? ==> (name, r.value) in entries && Find(entries, name) == Some(r.value)
    ensures r.Err? ==> r.error == UnknownRegisteredType(name, Names(entries)) && IsValueError(r.error)
  {
    match Find(entries, name)
    case Some(cls) => Ok(cls)
    case None => Err(UnknownRegisteredType(name, Names(entries)))
  }

  /** `register_*(name, cls)` for a registry whose classes must derive from
      `base`: the new entries, or the `TypeError` that leaves them as they were. */
  function Registered(entries: Entries, base: string, name: string, cls: PyClass): (r: Result<Entries>)
    ensures r.Err? <==> !cls.IsSubclassOf(base)
    ensures r.Err? ==> r.error == TypeError
    ensures r.Ok? ==> r.value == Put(entries, name, cls)
  {
    if !cls.IsSubclassOf(base) then Err(TypeError) else Ok(Put(entries, name, cls))
  }

  /** `create_*(name, **kwargs)`: the `ValueError` of `Created` for an unknown
      name, otherwise the registered class instantiated with the arguments. */
  function CreatedInstance(entries: Entries, name: string, kwargs: Fields): (r: Result<Instance>)
    ensures name !in Names(entries) ==> r == Err(UnknownRegisteredType(name, Names(entries)))
    ensures name in Names(entries) ==> r == Instantiate(Find(entries, name).value, kwargs)
    ensures r.Ok? ==> (name, r.value.cls) in entries && r.value.kwargs == kwargs
  {
    var cls :- Created(entries, name);
    Instantiate(cls, kwargs)
  }

  /** A base class passes the `issubclass` guard of its own registry, but
      while it is abstract creating it by name raises TypeError. */
  lemma AbstractBaseRegistersButCannotBeCreated(entries: Entries, base: PyClass, name: string, kwargs: Fields)
    requires base.isAbstract
    ensures Registered(entries, base.name, name, base) == Ok(Put(entries, name, base))
    ensures CreatedInstance(Put(entries, name, base), name, kwargs) == Err(TypeError)
  {
    PutFind(entries, name, base, name);
    PutNames(entries, name, base);
  }

  /** What `create_*` gives after a successful `register_*(name, cls)`: `cls`
      for `name`, and for every other registered name what it gave before. */
  lemma CreatedAfterPut(entries: Entries, name: string, cls: PyClass, other: string)
    ensures Created(Put(entries, name, cls), other) ==
      if other == name then Ok(cls)
      else if other in Names(entries) then Created(entries, other)
      else Err(UnknownRegisteredType(other, Names(Put(entries, name, cls))))
  {
    PutFind(entries, name, cls, other);
  }
}
