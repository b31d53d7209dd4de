/**
 * The two pure helpers of the command-line entry point: `${VAR}` substitution
 * over the loaded configuration tree (`process_env_vars` inside
 * `load_config`), and the service-adapter lookup `get_adapter`. The process
 * environment is a parameter.
 */
module Config {
  import opened Values
  import opened Text

  /** `os.environ.get(name, "")`. */
  function EnvGet(env: map<string, string>, name: string): string
  {
    if name in env then env[name] else ""
  }

  /** A string the substitution replaces: it starts with '${' and ends with '}'. */
  predicate IsPlaceholder(s: string)
  {
    StartsWith(s, "${") && EndsWith(s, "}")
  }

  /** The variable a placeholder names: the text between '${' and '}'. */
  function PlaceholderName(s: string): (name: string)
    requires IsPlaceholder(s)
    ensures "${" + name + "}" == s
  {
    assert s[..2] == "${" && s[|s| - 1..] == "}";
    assert s[1] == '{' && s[|s| - 1] == '}';
    var name := s[2..|s| - 1];
    assert s == s[..2] + name + s[|s| - 1..];
    name
  }

  /** `process_env_vars(item)`. */
  function ProcessEnvVars(item: Value, env: map<string, string>): (r: Value)
    ensures item.Str? && IsPlaceholder(item.s) ==> r == Str(EnvGet(env, PlaceholderName(item.s)))
    ensures item.Str? && !IsPlaceholder(item.s) ==> r == item
    ensures item.Null? || item.Bool? || item.Num? ==> r == item
    ensures item.Obj? ==> r.Obj? && Keys(r.fields) == Keys(item.fields)
    ensures item.List? ==> r.List? && |r.items| == |item.items|
    decreases item
  {
    match item
    case Str(s) =>
      if IsPlaceholder(s) then Str(EnvGet(env, PlaceholderName(s))) else item
    case Obj(fields) =>
      Obj(seq(|fields|, i requires 0 <= i < |fields| => (fields[i].0, ProcessField(fields, i, env))))
    case List(items) =>
      List(seq(|items|, i requires 0 <= i < |items| => ProcessEnvVars(items[i], env)))
    case _ => item
  }

  /** The processed value of the `i`th entry of a dict. */
  function ProcessField(fields: Fields, i: nat, env: map<string, string>): Value
    requires i < |fields|
    decreases Obj(fields), 0
  {
    assert fields[i] in fields;
    ProcessEnvVars(fields[i].1, env)
  }

  /** Every value of a dict and every item of a list is processed in turn. */
  lemma ChildrenProcessed(item: Value, env: map<string, string>)
    ensures item.Obj? ==> forall i | 0 <= i < |item.fields| ::
      ProcessEnvVars(item, env).fields[i] == (item.fields[i].0, ProcessEnvVars(ValueAt(item.fields, i), env))
    ensures item.List? ==> forall i | 0 <= i < |item.items| ::
      ProcessEnvVars(item, env).items[i] == ProcessEnvVars(item.items[i], env)
  {
  }

  /** No string in the tree is a placeholder. */
  predicate NoPlaceholders(item: Value)
    decreases item
  {
    match item
    case Str(s) => !IsPlaceholder(s)
    case Obj(fields) => forall i | 0 <= i < |fields| :: NoPlaceholders(ValueAt(fields, i))
    case List(items) => forall i | 0 <= i < |items| :: NoPlaceholders(items[i])
    case _ => true
  }

  function ValueAt(fields: Fields, i: nat): (v: Value)
    requires i < |fields|
    ensures v == fields[i].1
    ensures v < Obj(fields)
  {
    assert fields[i] in fields;
    fields[i].1
  }

  /** A tree without placeholders comes back unchanged. */
  lemma {:induction false} UnchangedWithoutPlaceholders(item: Value, env: map<string, string>)
    requires NoPlaceholders(item)
    ensures ProcessEnvVars(item, env) == item
    decreases item
  {
    ChildrenProcessed(item, env);
    match item
    case Obj(fields) =>
      var r := ProcessEnvVars(item, env);
      forall i | 0 <= i < |fields| ensures r.fields[i] == fields[i] {
        UnchangedWithoutPlaceholders(ValueAt(fields, i), env);
      }
      assert r.fields == fields;
    case List(items) =>
      var r := ProcessEnvVars(item, env);
      forall i | 0 <= i < |items| ensures r.items[i] == items[i] {
        UnchangedWithoutPlaceholders(items[i], env);
      }
      assert r.items == items;
    case _ =>
  }

  /** The value substituted for a placeholder is not expanded again, even when
      it is itself a placeholder. */
  lemma NoReexpansion(env: map<string, string>)
    requires env == map["A" := "${B}", "B" := "b"]
    ensures ProcessEnvVars(Str("${A}"), env) == Str("${B}")
  {
    assert IsPlaceholder("${A}") && PlaceholderName("${A}") == "A";
  }

  /** An unset variable becomes the empty string. */
  lemma UnsetVariableIsEmpty(name: string, env: map<string, string>)
    requires name !in env
    ensures ProcessEnvVars(Str("${" + name + "}"), env) == Str("")
  {
    var s := "${" + name + "}";
    assert s[..2] == "${" && s[|s| - 1..] == "}";
    assert IsPlaceholder(s);
    var n := PlaceholderName(s);
    assert n == name by {
      assert s[2..|s| - 1] == name;
    }
  }

  /** An adapter as its constructor leaves it: the config it was given, its
      `api_url`, and the `api_key` its `Authorization: Bearer` header carries. */
  datatype Adapter = ChatbotAdapter(config: Value, apiUrl: Value, apiKey: Value)
                   | RAGAdapter(config: Value, apiUrl: Value, apiKey: Value)

  /** What both adapter constructors read: `config['api_url']`, then
      `config['api_key']` inside the header f-string. */
  function AdapterSettings(config: Value): (r: Result<(Value, Value)>)
    ensures r.Ok? <==> config.Obj? && HasKey(config.fields, "api_url") && HasKey(config.fields, "api_key")
    ensures r.Ok? ==> Lookup(config.fields, "api_url") == Some(r.value.0) && Lookup(config.fields, "api_key") == Some(r.value.1)
    ensures !config.Obj? ==> r == Err(TypeError)
    ensures config.Obj? && !HasKey(config.fields, "api_url") ==> r == Err(KeyError("api_url"))
    ensures config.Obj? && HasKey(config.fields, "api_url") && !HasKey(config.fields, "api_key") ==> r == Err(KeyError("api_key"))
  {
    var apiUrl :- Index(config, "api_url");
    var apiKey :- Index(config, "api_key");
    Ok((apiUrl, apiKey))
  }

  /** Whether `get_adapter` has an adapter class for the service type. */
  predicate HasAdapterClass(serviceType: Value)
  {
    serviceType == Str("chatbot") || serviceType == Str("rag")
  }

  /** `get_adapter(service_type, config)`: the class comes from a dict lookup,
      so an unhashable service type raises `TypeError`, and an unknown one
      `ValueError`; then the class's constructor reads the settings. */
  function GetAdapter(serviceType: Value, config: Value): (r: Result<Adapter>)
    ensures r.Ok? <==> HasAdapterClass(serviceType) && AdapterSettings(config).Ok?
    ensures r.Ok? ==> r.value.config == config && (r.value.apiUrl, r.value.apiKey) == AdapterSettings(config).value
    ensures r.Ok? ==> (r.value.ChatbotAdapter? <==> serviceType == Str("chatbot"))
    ensures HasAdapterClass(serviceType) && AdapterSettings(config).Err? ==> r == Err(AdapterSettings(config).error)
    ensures !HasAdapterClass(serviceType) && (serviceType.List? || serviceType.Obj?) ==> r == Err(TypeError)
    ensures !HasAdapterClass(serviceType) && !(serviceType.List? || serviceType.Obj?) ==>
      r == Err(UnknownServiceType(serviceType)) && IsValueError(r.error)
  {
    match serviceType
    case Str(s) =>
      if s == "chatbot" then
        var (apiUrl, apiKey) :- AdapterSettings(config);
        Ok(ChatbotAdapter(config, apiUrl, apiKey))
      else if s == "rag" then
        var (apiUrl, apiKey) :- AdapterSettings(config);
        Ok(RAGAdapter(config, apiUrl, apiKey))
      else Err(UnknownServiceType(serviceType))
    case List(_) => Err(TypeError)
    case Obj(_) => Err(TypeError)
    case _ => Err(UnknownServiceType(serviceType))
  }

  /** A service with no section in the configuration gets `{}`, so building
      its adapter raises KeyError for 'api_url'. */
  lemma ServiceWithoutSectionRaises(serviceType: Value)
    requires HasAdapterClass(serviceType)
    ensures GetAdapter(serviceType, Obj([])) == Err(KeyError("api_url"))
  {
  }

  /** The services the command line offers. */
  const CliServices: seq<string> := ["chatbot", "rag", "voice", "translation"]

  /** Two of the four services the command line accepts have no adapter:
      for them `get_adapter` raises ValueError whatever the config. */
  lemma CliServicesWithoutAdapter(config: Value)
    ensures forall i | 0 <= i < |CliServices| ::
      GetAdapter(Str(CliServices[i]), config).Ok? <==> i < 2 && AdapterSettings(config).Ok?
    ensures forall i | 2 <= i < |CliServices| ::
      GetAdapter(Str(CliServices[i]), config) == Err(UnknownServiceType(Str(CliServices[i])))
  {
  }
}
