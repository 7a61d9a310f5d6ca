/** Config (src/utils/config_loader.py): the checks run on the loaded
    settings before anything else may use them, and the lookups the rest of
    the program makes. The settings and prompts are the parsed YAML
    mappings; the API key is the environment variable's value. */
module ConfigLoader {
  import opened Py
  import opened Records
  import opened Exceptions

  /** The loaded configuration: `settings.yaml` and `prompts.yaml`. */
  datatype Config = Config(settings: seq<(string, Value)>, prompts: seq<(string, Value)>)

  /** The values the checks accept, after their defaults are applied. */
  datatype Checked = Checked(maxIterations: int, pmfThreshold: real, personasCount: int, ideatorTemperature: real)

  // ---------------------------------------------------------------------
  // Python's view of a value

  /** `isinstance(v, int)`: bool counts, as a subclass of int. */
  function AsInt(v: Value): Option<int> {
    match v
    case Int(i) => Some(i)
    case Bool(b) => Some(if b then 1 else 0)
    case _ => None
  }

  /** `isinstance(v, (int, float))` */
  function AsNumber(v: Value): Option<real> {
    match v
    case Int(i) => Some(i as real)
    case Bool(b) => Some(if b then 1.0 else 0.0)
    case Float(f) => Some(f)
    case _ => None
  }

  /** The class name Python puts in its error messages. */
  function TypeName(v: Value): string {
    match v
    case Null => "NoneType"
    case Bool(_) => "bool"
    case Int(_) => "int"
    case Float(_) => "float"
    case Str(_) => "str"
    case List(_) => "list"
    case Dict(_) => "dict"
  }

  /** `v[key]` with a string key on a value that is not a mapping. */
  function NotSubscriptable(v: Value): Error {
    Error(Builtin("TypeError"),
      if v.Str? then "string indices must be integers, not 'str'"
      else if v.List? then "list indices must be integers or slices, not str"
      else "'" + TypeName(v) + "' object is not subscriptable")
  }

  /** `v.get(...)` on a value that is not a mapping. */
  function NoGet(v: Value): Error {
    Error(Builtin("AttributeError"), "'" + TypeName(v) + "' object has no attribute 'get'")
  }

  /** `d.get(key, default)` */
  function GetOr(entries: seq<(string, Value)>, key: string, default: Value): (v: Value)
    ensures HasKey(entries, key) ==> Some(v) == Get(entries, key)
    ensures !HasKey(entries, key) ==> v == default
  {
    Get(entries, key).GetOr(default)
  }

  // ---------------------------------------------------------------------
  // The checks

  const KeyName: string := "OPENROUTER_API_KEY"
  const KeyPrefix: string := "sk-or-v1-"
  const KeysUrl: string := "https://openrouter.ai/keys"
  const MissingKeyMiddle: string := " not found in environment variables. Please create a .env file with your API key. Get a key at: "
  const BadKeyHead: string := "OPENROUTER_API_KEY appears to be "
  const BadKeyMiddle: string := ". OpenRouter keys should start with '"
  const BadKeyTail: string := "'. Please check your .env file."

  function MissingKey(): Error {
    Error(AuthenticationError, KeyName + MissingKeyMiddle + KeysUrl)
  }

  function BadKey(): Error {
    Error(AuthenticationError, BadKeyHead + "invalid" + BadKeyMiddle + KeyPrefix + BadKeyTail)
  }

  /** The missing-key error names the variable and where to get a key. */
  lemma MissingKeyMessage()
    ensures Contains(MissingKey().message, KeyName) && Contains(MissingKey().message, KeysUrl)
  {
    var m := MissingKey().message;
    assert m[..|KeyName|] == KeyName;
    ContainsAt(m, KeyName, 0);
    assert m[|m| - |KeysUrl|..] == KeysUrl;
    ContainsAt(m, KeysUrl, |m| - |KeysUrl|);
  }

  /** The malformed-key error says "invalid", in any case, and names the
      expected prefix. */
  lemma BadKeyMessage()
    ensures Contains(LowerStr(BadKey().message), "invalid") && Contains(BadKey().message, KeyPrefix)
  {
    var m := BadKey().message;
    ContainsMiddle(BadKeyHead, "invalid", BadKeyMiddle + KeyPrefix + BadKeyTail);
    assert m == BadKeyHead + "invalid" + (BadKeyMiddle + KeyPrefix + BadKeyTail);
    ContainsInLower(m, "invalid");
    ContainsMiddle(BadKeyHead + "invalid" + BadKeyMiddle, KeyPrefix, BadKeyTail);
  }

  function ConfigError(message: string): Error {
    Error(ConfigurationError, message)
  }

  const RequiredSections: seq<string> := ["models", "workflow", "social_media"]
  const RequiredModels: seq<string> := ["ideator", "market_predictor", "critic", "persona_generator"]

  /** The first of `names` missing from the mapping, if any. */
  function FirstMissing(entries: seq<(string, Value)>, names: seq<string>): (r: Option<string>)
    ensures r.Some? ==> r.value in names && !HasKey(entries, r.value)
    ensures r.None? ==> forall n | n in names :: HasKey(entries, n)
  {
    if names == [] then None
    else if !HasKey(entries, names[0]) then Some(names[0])
    else FirstMissing(entries, names[1..])
  }

  /** The first of `names` whose value is falsy (or absent), if any. */
  function FirstFalsy(entries: seq<(string, Value)>, names: seq<string>): (r: Option<string>)
    ensures r.Some? ==> r.value in names && !Truthy(GetOr(entries, r.value, Null))
    ensures r.None? ==> forall n | n in names :: Truthy(GetOr(entries, n, Null))
  {
    if names == [] then None
    else if !Truthy(GetOr(entries, names[0], Null)) then Some(names[0])
    else FirstFalsy(entries, names[1..])
  }

  const MaxIterationsLow: string := "workflow.max_iterations must be a positive integer, got: "
  const MaxIterationsHighHead: string := "workflow.max_iterations is set to "
  const MaxIterationsHighTail: string := ". Values > 10 may be expensive and have diminishing returns. Recommended: 3-5"
  const PmfThresholdRange: string := "workflow.pmf_threshold must be between 0 and 100, got: "
  const PersonasCountLowHead: string := "workflow.personas_count must be at least 10 for statistical validity, got: "
  const PersonasCountLowTail: string := ". Recommended: 50-100 for reliable results."
  const PersonasCountHighHead: string := "workflow.personas_count is set to "
  const PersonasCountHighTail: string := ". Values > 500 may be very expensive and slow. Are you sure you want this many personas?"
  const TemperatureRange: string := "models.ideator_temperature must be between 0 and 2, got: "
  const MissingSection: string := "Missing required configuration section: "
  const MissingModel: string := "Missing required model configuration: models."

  /** A whole number in [lo, hi]; `below` is raised for a value that is not
      a whole number or is too small, `above` for one too large. */
  function IntInRange(v: Option<int>, lo: int, hi: int, below: Error, above: Error): (r: Result<int, Error>)
    ensures r.Success? <==> v.Some? && lo <= v.value <= hi
    ensures r.Success? ==> r.value == v.value
    ensures r.Failure? ==> r.error == (if v.None? || v.value < lo then below else above)
  {
    if v.None? || v.value < lo then Failure(below)
    else if v.value > hi then Failure(above)
    else Success(v.value)
  }

  /** A number in [lo, hi]; anything else raises `outside`. */
  function NumberInRange(v: Option<real>, lo: real, hi: real, outside: Error): (r: Result<real, Error>)
    ensures r.Success? <==> v.Some? && lo <= v.value <= hi
    ensures r.Success? ==> r.value == v.value
    ensures r.Failure? ==> r.error == outside
  {
    if v.None? || v.value < lo || v.value > hi then Failure(outside) else Success(v.value)
  }

  /** The `workflow` section: `max_iterations` (default 5) a whole number
      in [1, 10], `pmf_threshold` (default 40.0) a number in [0, 100] and
      `personas_count` (default 100) a whole number in [10, 500], checked
      in that order. */
  function CheckWorkflow(workflow: seq<(string, Value)>, show: Value -> string): (r: Result<(int, real, int), Error>)
    ensures var m := AsInt(GetOr(workflow, "max_iterations", Int(5)));
      var p := AsNumber(GetOr(workflow, "pmf_threshold", Float(40.0)));
      var n := AsInt(GetOr(workflow, "personas_count", Int(100)));
      r.Success? <==>
        && m.Some? && 1 <= m.value <= 10
        && p.Some? && 0.0 <= p.value <= 100.0
        && n.Some? && 10 <= n.value <= 500
    ensures r.Success? ==>
      && Some(r.value.0) == AsInt(GetOr(workflow, "max_iterations", Int(5)))
      && Some(r.value.1) == AsNumber(GetOr(workflow, "pmf_threshold", Float(40.0)))
      && Some(r.value.2) == AsInt(GetOr(workflow, "personas_count", Int(100)))
    ensures r.Failure? ==> r.error.kind == ConfigurationError
  {
    var m := GetOr(workflow, "max_iterations", Int(5));
    var maxIterations :- IntInRange(AsInt(m), 1, 10,
      ConfigError(MaxIterationsLow + show(m)),
      ConfigError(MaxIterationsHighHead + show(m) + MaxIterationsHighTail));
    var p := GetOr(workflow, "pmf_threshold", Float(40.0));
    var pmfThreshold :- NumberInRange(AsNumber(p), 0.0, 100.0, ConfigError(PmfThresholdRange + show(p)));
    var n := GetOr(workflow, "personas_count", Int(100));
    var personasCount :- IntInRange(AsInt(n), 10, 500,
      ConfigError(PersonasCountLowHead + show(n) + PersonasCountLowTail),
      ConfigError(PersonasCountHighHead + show(n) + PersonasCountHighTail));
    Success((maxIterations, pmfThreshold, personasCount))
  }

  /** The `models` section: the four agents' models named (truthy), then
      `ideator_temperature` (default 0.7) a number in [0, 2]. */
  function CheckModels(models: seq<(string, Value)>, show: Value -> string): (r: Result<real, Error>)
    ensures var t := AsNumber(GetOr(models, "ideator_temperature", Float(0.7)));
      r.Success? <==>
        && (forall m | m in RequiredModels :: Truthy(GetOr(models, m, Null)))
        && t.Some? && 0.0 <= t.value <= 2.0
    ensures r.Success? ==> Some(r.value) == AsNumber(GetOr(models, "ideator_temperature", Float(0.7)))
    ensures r.Failure? ==> r.error.kind == ConfigurationError
    ensures FirstFalsy(models, RequiredModels).Some? ==>
      r == Failure(ConfigError(MissingModel + FirstFalsy(models, RequiredModels).value))
  {
    var missing := FirstFalsy(models, RequiredModels);
    if missing.Some? then Failure(ConfigError(MissingModel + missing.value))
    else
      var t := GetOr(models, "ideator_temperature", Float(0.7));
      NumberInRange(AsNumber(t), 0.0, 2.0, ConfigError(TemperatureRange + show(t)))
  }

  /** The settings half of `_validate`: the sections, the workflow
      numbers, the model names and the temperature, in that order; the
      first failure raises. `show` is Python's `str` on a setting. */
  function CheckSettings(settings: seq<(string, Value)>, show: Value -> string): (r: Result<Checked, Error>)
    ensures r.Success? ==>
      && 1 <= r.value.maxIterations <= 10
      && 0.0 <= r.value.pmfThreshold <= 100.0
      && 10 <= r.value.personasCount <= 500
      && 0.0 <= r.value.ideatorTemperature <= 2.0
    ensures r.Failure? ==> r.error.kind in {ConfigurationError, Builtin("AttributeError")}
  {
    if FirstMissing(settings, RequiredSections).Some? then
      Failure(ConfigError(MissingSection + FirstMissing(settings, RequiredSections).value))
    else
      var workflow := GetOr(settings, "workflow", Dict([]));
      if !workflow.Dict? then Failure(NoGet(workflow))
      else
        var numbers :- CheckWorkflow(workflow.entries, show);
        var models := GetOr(settings, "models", Dict([]));
        if !models.Dict? then Failure(NoGet(models))
        else
          var temperature :- CheckModels(models.entries, show);
          Success(Checked(numbers.0, numbers.1, numbers.2, temperature))
  }

  /** The settings are accepted exactly when the three sections exist,
      `workflow` and `models` are mappings and their checks pass; the
      accepted numbers are the ones those checks return. */
  lemma CheckSettingsSpec(settings: seq<(string, Value)>, show: Value -> string)
    ensures var r := CheckSettings(settings, show);
      var workflow := GetOr(settings, "workflow", Dict([]));
      var models := GetOr(settings, "models", Dict([]));
      r.Success? <==>
        && HasKey(settings, "models") && HasKey(settings, "workflow") && HasKey(settings, "social_media")
        && workflow.Dict? && models.Dict?
        && CheckWorkflow(workflow.entries, show).Success?
        && CheckModels(models.entries, show).Success?
    ensures var r := CheckSettings(settings, show);
      var workflow := GetOr(settings, "workflow", Dict([]));
      var models := GetOr(settings, "models", Dict([]));
      r.Success? ==>
        && (r.value.maxIterations, r.value.pmfThreshold, r.value.personasCount) == CheckWorkflow(workflow.entries, show).value
        && r.value.ideatorTemperature == CheckModels(models.entries, show).value
  {
    if FirstMissing(settings, RequiredSections).None? {
      assert "models" in RequiredSections && "workflow" in RequiredSections && "social_media" in RequiredSections;
    }
  }

  /** `_validate`: the API key first (present, then with the OpenRouter
      prefix), then the settings. */
  function Validate(apiKey: Option<string>, settings: seq<(string, Value)>, show: Value -> string): (r: Result<Checked, Error>)
    ensures (apiKey.None? || apiKey == Some("")) ==> r == Failure(MissingKey())
    ensures apiKey.Some? && apiKey.value != "" && !StartsWith(apiKey.value, KeyPrefix) ==> r == Failure(BadKey())
    ensures apiKey.Some? && StartsWith(apiKey.value, KeyPrefix) ==> r == CheckSettings(settings, show)
  {
    if apiKey.None? || apiKey.value == "" then Failure(MissingKey())
    else if !StartsWith(apiKey.value, KeyPrefix) then Failure(BadKey())
    else CheckSettings(settings, show)
  }

  // ---------------------------------------------------------------------
  // Lookups

  /** Following `keys` down nested mappings: None where a key is missing or
      holds None, or where a value on the way is not a mapping. */
  function Walk(value: Value, keys: seq<string>): Option<Value> {
    if keys == [] then Some(value)
    else if !value.Dict? then None
    else
      var next := Get(value.entries, keys[0]);
      if next.None? || next.value.Null? then None else Walk(next.value, keys[1..])
  }

  /** Walking a path is walking its first part and then the rest. */
  lemma {:induction false} WalkAppend(value: Value, first: seq<string>, rest: seq<string>)
    ensures Walk(value, first + rest) ==
      (if Walk(value, first).Some? then Walk(Walk(value, first).value, rest) else None)
  {
    if first != [] {
      assert (first + rest)[0] == first[0] && (first + rest)[1..] == first[1..] + rest;
      if value.Dict? {
        var next := Get(value.entries, first[0]);
        if next.Some? && !next.value.Null? {
          WalkAppend(next.value, first[1..], rest);
        }
      }
    } else {
      assert first + rest == rest;
    }
  }

  /** A non-empty path never ends on None: a stored None counts as
      missing. */
  lemma {:induction false} WalkNeverNull(value: Value, keys: seq<string>)
    requires keys != []
    ensures Walk(value, keys).Some? ==> !Walk(value, keys).value.Null?
  {
    if value.Dict? {
      var next := Get(value.entries, keys[0]);
      if next.Some? && !next.value.Null? && |keys| > 1 {
        WalkNeverNull(next.value, keys[1..]);
      }
    }
  }

  /** `get_setting(*keys, default=default)`: the loop that rebinds `value`
      one key at a time. */
  method GetSetting(config: Config, keys: seq<string>, default: Value) returns (r: Value)
    ensures r == Walk(Dict(config.settings), keys).GetOr(default)
  {
    var value := Dict(config.settings);
    var i := 0;
    while i < |keys|
      invariant 0 <= i <= |keys|
      invariant Walk(Dict(config.settings), keys) == Walk(value, keys[i..])
    {
      assert keys[i..][0] == keys[i] && keys[i..][1..] == keys[i + 1..];
      if value.Dict? {
        var next := Get(value.entries, keys[i]);
        if next.None? || next.value.Null? {
          return default;
        }
        value := next.value;
      } else {
        return default;
      }
      i := i + 1;
    }
    r := value;
  }

  /** The lookup's documented cases: no keys give the whole settings tree,
      a value that is present and not None comes back as it is (falsy or
      not), and a missing first key gives the default. */
  lemma GetSettingCases(config: Config, key: string, more: seq<string>, default: Value)
    ensures Walk(Dict(config.settings), []).GetOr(default) == Dict(config.settings)
    ensures var v := Get(config.settings, key);
      v.Some? && !v.value.Null? ==> Walk(Dict(config.settings), [key]).GetOr(default) == v.value
    ensures !HasKey(config.settings, key) ==> Walk(Dict(config.settings), [key] + more).GetOr(default) == default
  {
    assert ([key] + more)[0] == key;
  }

  /** `settings[k1][k2]...`, as the accessor properties read a setting:
      no default, so a missing key raises KeyError and indexing a value that
      is not a mapping raises TypeError. */
  function Index(value: Value, keys: seq<string>): (r: Result<Value, Error>)
    ensures r.Failure? ==> r.error.kind in {Builtin("KeyError"), Builtin("TypeError")}
    ensures r.Success? && keys != [] && !r.value.Null? ==> Walk(value, keys) == Some(r.value)
    ensures Walk(value, keys).Some? ==> r == Success(Walk(value, keys).value)
  {
    if keys == [] then Success(value)
    else if !value.Dict? then Failure(NotSubscriptable(value))
    else
      var next := Get(value.entries, keys[0]);
      if next.None? then Failure(Error(Builtin("KeyError"), "'" + keys[0] + "'"))
      else if next.value.Null? && |keys| > 1 then Failure(NotSubscriptable(next.value))
      else Index(next.value, keys[1..])
  }

  /** Reading `settings[section][key]` without raising reads the value the
      checks found under that key. */
  lemma IndexPair(settings: seq<(string, Value)>, section: string, key: string)
    ensures var r := Index(Dict(settings), [section, key]);
      r.Success? ==>
        && HasKey(settings, section) && GetOr(settings, section, Dict([])).Dict?
        && Get(GetOr(settings, section, Dict([])).entries, key) == Some(r.value)
  {
    assert [section, key][1..] == [key];
    var next := Get(settings, section);
    if next.Some? && !next.value.Null? && next.value.Dict? {
      var inner := Get(next.value.entries, key);
      if inner.Some? {
        assert [key][1..] == [];
        assert Index(next.value, [key]) == Index(inner.value, []) == Success(inner.value);
      }
    }
  }

  /** Once the settings are accepted, the workflow properties, when they do
      not raise, read numbers in the accepted ranges. */
  lemma AcceptedWorkflow(settings: seq<(string, Value)>, show: Value -> string, v: Value)
    requires CheckSettings(settings, show).Success?
    ensures Index(Dict(settings), ["workflow", "max_iterations"]) == Success(v) ==>
      AsInt(v).Some? && 1 <= AsInt(v).value <= 10
    ensures Index(Dict(settings), ["workflow", "pmf_threshold"]) == Success(v) ==>
      AsNumber(v).Some? && 0.0 <= AsNumber(v).value <= 100.0
    ensures Index(Dict(settings), ["workflow", "personas_count"]) == Success(v) ==>
      AsInt(v).Some? && 10 <= AsInt(v).value <= 500
  {
    CheckSettingsSpec(settings, show);
    IndexPair(settings, "workflow", "max_iterations");
    IndexPair(settings, "workflow", "pmf_threshold");
    IndexPair(settings, "workflow", "personas_count");
  }

  /** Once the settings are accepted, `ideator_temperature`, when it does
      not raise, reads a number in [0, 2]. */
  lemma AcceptedTemperature(settings: seq<(string, Value)>, show: Value -> string, v: Value)
    requires CheckSettings(settings, show).Success?
    ensures Index(Dict(settings), ["models", "ideator_temperature"]) == Success(v) ==>
      AsNumber(v).Some? && 0.0 <= AsNumber(v).value <= 2.0
  {
    CheckSettingsSpec(settings, show);
    IndexPair(settings, "models", "ideator_temperature");
  }

  /** `get_prompt(agent, prompt_type)`: a missing agent or prompt type is a
      ValueError; indexing an agent entry that is not a mapping raises
      TypeError, which is not caught. */
  function GetPrompt(config: Config, agent: string, promptType: string): (r: Result<Value, Error>)
    ensures !HasKey(config.prompts, agent) ==> r.Failure? && r.error.kind == Builtin("ValueError")
    ensures var s := Get(config.prompts, agent);
      s.Some? && s.value.Dict? && !HasKey(s.value.entries, promptType) ==>
        r.Failure? && r.error.kind == Builtin("ValueError")
    ensures var s := Get(config.prompts, agent);
      s.Some? && !s.value.Dict? ==> r.Failure? && r.error.kind == Builtin("TypeError")
    ensures var s := Get(config.prompts, agent);
      s.Some? && s.value.Dict? && HasKey(s.value.entries, promptType) ==>
        r == Success(Get(s.value.entries, promptType).value)
    ensures r.Success? ==> exists i, j ::
      && 0 <= i < |config.prompts| && config.prompts[i].0 == agent && config.prompts[i].1.Dict?
      && 0 <= j < |config.prompts[i].1.entries| && config.prompts[i].1.entries[j] == (promptType, r.value)
  {
    var notFound := Error(Builtin("ValueError"), "Prompt not found: " + agent + "." + promptType);
    var section := Get(config.prompts, agent);
    if section.None? then Failure(notFound)
    else if !section.value.Dict? then
      Failure(NotSubscriptable(section.value))
    else
      var text := Get(section.value.entries, promptType);
      if text.None? then Failure(notFound) else Success(text.value)
  }

  /** `is_feature_enabled(feature)`: the flag as stored, False for an
      unknown feature or a missing `features` section; a `features` entry
      that is not a mapping has no `get`. */
  function IsFeatureEnabled(config: Config, feature: string): (r: Result<Value, Error>)
    ensures !HasKey(config.settings, "features") ==> r == Success(Bool(false))
    ensures var f := Get(config.settings, "features");
      f.Some? && f.value.Dict? && !HasKey(f.value.entries, feature) ==> r == Success(Bool(false))
    ensures var f := Get(config.settings, "features");
      f.Some? && f.value.Dict? && HasKey(f.value.entries, feature) ==> r.Success? && Some(r.value) == Get(f.value.entries, feature)
    ensures r.Failure? <==> HasKey(config.settings, "features") && !GetOr(config.settings, "features", Dict([])).Dict?
  {
    var features := GetOr(config.settings, "features", Dict([]));
    if !features.Dict? then Failure(NoGet(features))
    else Success(GetOr(features.entries, feature, Bool(false)))
  }

  /** `Config()`: the files as loaded, accepted only when `_validate`
      passes. */
  function Load(apiKey: Option<string>, settings: seq<(string, Value)>, prompts: seq<(string, Value)>, show: Value -> string)
    : (r: Result<Config, Error>)
    ensures r.Success? <==> Validate(apiKey, settings, show).Success?
    ensures r.Success? ==> r.value == Config(settings, prompts)
    ensures r.Failure? ==> r.error == Validate(apiKey, settings, show).error
  {
    var _ :- Validate(apiKey, settings, show);
    Success(Config(settings, prompts))
  }
}
