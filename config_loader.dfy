/**
 * The project-wide configuration (utils/config_loader.py): a class-level
 * singleton loaded once from a YAML file, where environment variables take
 * precedence over the file for the named keys.  The YAML file is given as
 * its parsed contents and the environment as a map.
 */
module Config {
  import opened Wrappers
  import opened Json
  import opened Grouping

  /** The config file: absent, or present with its `yaml.safe_load` result (`Null` when empty). */
  datatype ConfigFile = Missing | Present(doc: Value)

  /** Each named key with the environment variable that overrides it, as spelt in the source. */
  const NAMED_KEYS: seq<(string, string)> := [
    ("openai_base_url", "OPENAI_BASE_URL"),
    ("openai_api_key", "OPENAI_API_KEY"),
    ("openai_model_name", "OPENAI_MODEL_NAME"),
    ("reasoner_model_name", "REASONER_MODEL_NAME"),
    ("worldquant_account", "WORLDQUANT_ACCOUNT"),
    ("worldquant_password", "WORLDQUANT_PASSWORD"),
    ("worldquant_login_url", "WORLDQUAN_LOGIN_URL"),
    ("worldquant_api_auth", "WORLDQUAN_API_AUTH"),
    ("worldquant_consultant_posts_url", "WORLDQUANT_CONSULTANT_POSTS_URL")
  ]

  const ENABLED_KEY := "enabled_field_datasets"

  /** `os.getenv(name, fallback)`: a set variable wins, even when it is empty. */
  function EnvOr(env: map<string, string>, name: string, fallback: Value): (r: Value)
    ensures name in env ==> r == Str(env[name])
    ensures name !in env ==> r == fallback
  {
    if name in env then Str(env[name]) else fallback
  }

  /** The named entries of the config dict, in the order they are written. */
  function Named(fields: seq<(string, Value)>, env: map<string, string>): (r: seq<(string, Value)>)
    ensures |r| == |NAMED_KEYS|
    ensures forall i :: 0 <= i < |NAMED_KEYS| ==>
      r[i] == (NAMED_KEYS[i].0, EnvOr(env, NAMED_KEYS[i].1, Get(fields, NAMED_KEYS[i].0)))
  {
    seq(|NAMED_KEYS|, i requires 0 <= i < |NAMED_KEYS| =>
      (NAMED_KEYS[i].0, EnvOr(env, NAMED_KEYS[i].1, Get(fields, NAMED_KEYS[i].0))))
  }

  /** The dataset setting as a list: a non-list value becomes a one-element list. */
  function WrapList(v: Value): (r: Value)
    ensures r.List?
    ensures v.List? ==> r == v
    ensures !v.List? ==> r == List([v])
  {
    if v.List? then v else List([v])
  }

  /** The dict `_load_config` stores, from the YAML mapping and the environment. */
  function Settings(fields: seq<(string, Value)>, env: map<string, string>): ODict<string, Value>
  {
    ODict(Named(fields, env) + [(ENABLED_KEY, WrapList(GetOr(fields, ENABLED_KEY, List([]))))])
  }

  /** `yaml.safe_load(f) or {}`, which must then be a mapping for `.get`. */
  function YamlMapping(doc: Value): (r: Result<seq<(string, Value)>>)
    ensures !Truthy(doc) ==> r == Ok([])
    ensures Truthy(doc) && doc.Object? ==> r == Ok(doc.fields)
    ensures Truthy(doc) && !doc.Object? ==> r == Err("AttributeError")
  {
    var y := if Truthy(doc) then doc else Object([]);
    if y.Object? then Ok(y.fields) else Err("AttributeError")
  }

  /** What `_load_config` stores, or the exception it raises. */
  function Load(file: ConfigFile, env: map<string, string>): Result<ODict<string, Value>>
  {
    match file
    case Missing => Err("FileNotFoundError")
    case Present(doc) =>
      match YamlMapping(doc)
      case Err(e) => Err(e)
      case Ok(fields) => Ok(Settings(fields, env))
  }

  /** The class-level state: whether `_instance` is set, and the `_config` it reads. */
  datatype Snapshot = Snapshot(instance: bool, config: ODict<string, Value>)

  /**
   * `ConfigLoader(path)`: the first construction sets `_instance` and then
   * loads; a failed load leaves `_instance` set with the empty class-level
   * `_config`.  Later constructions change nothing, whatever the path.
   */
  function AfterNew(s: Snapshot, file: ConfigFile, env: map<string, string>): (Snapshot, Option<string>)
  {
    if s.instance then (s, None)
    else
      match Load(file, env)
      case Err(e) => (Snapshot(true, s.config), Some(e))
      case Ok(c) => (Snapshot(true, c), None)
  }

  /** `d.get(key, default)`. */
  function FindOr(d: ODict<string, Value>, key: string, default: Value): Value
  {
    match Grouping.Find(d, key)
    case None => default
    case Some(v) => v
  }

  /** `ConfigLoader.get(key, default)`: construct if needed, then look up. */
  function AfterGet(s: Snapshot, key: string, default: Value, file: ConfigFile, env: map<string, string>)
    : (Snapshot, Result<Value>)
  {
    var (t, raised) := AfterNew(s, file, env);
    if raised.Some? then (t, Err(raised.value)) else (t, Ok(FindOr(t.config, key, default)))
  }

  /** `ConfigLoader.all()`: construct if needed, then a copy of the whole dict. */
  function AfterAll(s: Snapshot, file: ConfigFile, env: map<string, string>): (Snapshot, Result<ODict<string, Value>>)
  {
    var (t, raised) := AfterNew(s, file, env);
    if raised.Some? then (t, Err(raised.value)) else (t, Ok(t.config))
  }

  /**
   * The class object.  `file` and `env` are what the process would see at
   * the moment of the call.
   */
  class ConfigLoader {
    var instance: bool
    var config: ODict<string, Value>

    /** The class as defined: no instance yet, `_config = {}`. */
    constructor()
      ensures !instance && config == Empty()
    {
      instance := false;
      config := Empty();
    }

    function State(): Snapshot
      reads this
    {
      Snapshot(instance, config)
    }

    /** `_load_config`: build the dict, then wrap the dataset setting in place. */
    method LoadConfig(file: ConfigFile, env: map<string, string>) returns (raised: Option<string>)
      modifies this
      ensures instance == old(instance)
      ensures Load(file, env).Err? ==> config == old(config) && raised == Some(Load(file, env).error)
      ensures Load(file, env).Ok? ==> config == Load(file, env).value && raised.None?
    {
      if file.Missing? {
        return Some("FileNotFoundError");
      }
      var yaml := YamlMapping(file.doc);
      if yaml.Err? {
        return Some(yaml.error);
      }
      var fields := yaml.value;
      var named: seq<(string, Value)> := [];
      for n := 0 to |NAMED_KEYS|
        invariant |named| == n
        invariant forall i :: 0 <= i < n ==>
          named[i] == (NAMED_KEYS[i].0, EnvOr(env, NAMED_KEYS[i].1, Json.Get(fields, NAMED_KEYS[i].0)))
      {
        var (key, name) := NAMED_KEYS[n];
        named := named + [(key, EnvOr(env, name, Json.Get(fields, key)))];
      }
      assert named == Named(fields, env);
      var datasets := GetOr(fields, ENABLED_KEY, List([]));
      config := ODict(named + [(ENABLED_KEY, datasets)]);
      if !datasets.List? {
        config := ODict(named + [(ENABLED_KEY, List([datasets]))]);
      }
      raised := None;
    }

    /** `ConfigLoader(path)`. */
    method New(file: ConfigFile, env: map<string, string>) returns (raised: Option<string>)
      modifies this
      ensures (State(), raised) == AfterNew(old(State()), file, env)
    {
      raised := None;
      if !instance {
        instance := true;
        raised := LoadConfig(file, env);
      }
    }

    /** `ConfigLoader.get(key, default)`. */
    method Get(key: string, default: Value, file: ConfigFile, env: map<string, string>) returns (r: Result<Value>)
      modifies this
      ensures (State(), r) == AfterGet(old(State()), key, default, file, env)
    {
      var raised: Option<string> := None;
      if !instance {
        raised := New(file, env);
      }
      if raised.Some? {
        return Err(raised.value);
      }
      r := Ok(FindOr(config, key, default));
    }

    /** `ConfigLoader.all()`: the dict is a value, so the copy shares nothing with the stored one. */
    method All(file: ConfigFile, env: map<string, string>) returns (r: Result<ODict<string, Value>>)
      modifies this
      ensures (State(), r) == AfterAll(old(State()), file, env)
    {
      var raised: Option<string> := None;
      if !instance {
        raised := New(file, env);
      }
      if raised.Some? {
        return Err(raised.value);
      }
      r := Ok(config);
    }
  }

  // ---------------------------------------------------------------------
  // Properties of the stored dict

  /** The dict literal's keys. */
  const CONFIG_KEYS: seq<string> := [
    "openai_base_url", "openai_api_key", "openai_model_name", "reasoner_model_name",
    "worldquant_account", "worldquant_password", "worldquant_login_url", "worldquant_api_auth",
    "worldquant_consultant_posts_url", ENABLED_KEY
  ]

  /** Adding a key that differs from every other one in length or at position `k` keeps the keys distinct. */
  lemma ConsDistinct(x: string, t: seq<string>, k: nat)
    requires Distinct(t)
    requires forall j :: 0 <= j < |t| ==> |t[j]| != |x| || (k < |x| && k < |t[j]| && t[j][k] != x[k])
    ensures Distinct([x] + t)
  {
    assert ([x] + t)[1..] == t;
    forall j | 0 <= j < |t| ensures t[j] != x {
      if |t[j]| == |x| {
        assert t[j][k] != x[k];
      }
    }
  }

  // The keys from position n on are distinct, one position at a time.

  lemma KeysFrom9()
    ensures Distinct(CONFIG_KEYS[9..])
  {
    assert CONFIG_KEYS[9..] == [ENABLED_KEY];
  }

  lemma KeysFrom8()
    ensures Distinct(CONFIG_KEYS[8..])
  {
    KeysFrom9();
    ConsDistinct(CONFIG_KEYS[8], CONFIG_KEYS[9..], 0);
    assert CONFIG_KEYS[8..] == [CONFIG_KEYS[8]] + CONFIG_KEYS[9..];
  }

  lemma KeysFrom7()
    ensures Distinct(CONFIG_KEYS[7..])
  {
    KeysFrom8();
    ConsDistinct(CONFIG_KEYS[7], CONFIG_KEYS[8..], 0);
    assert CONFIG_KEYS[7..] == [CONFIG_KEYS[7]] + CONFIG_KEYS[8..];
  }

  lemma KeysFrom6()
    ensures Distinct(CONFIG_KEYS[6..])
  {
    KeysFrom7();
    ConsDistinct(CONFIG_KEYS[6], CONFIG_KEYS[7..], 0);
    assert CONFIG_KEYS[6..] == [CONFIG_KEYS[6]] + CONFIG_KEYS[7..];
  }

  lemma KeysFrom5()
    ensures Distinct(CONFIG_KEYS[5..])
  {
    KeysFrom6();
    ConsDistinct(CONFIG_KEYS[5], CONFIG_KEYS[6..], 11);
    assert CONFIG_KEYS[5..] == [CONFIG_KEYS[5]] + CONFIG_KEYS[6..];
  }

  lemma KeysFrom4()
    ensures Distinct(CONFIG_KEYS[4..])
  {
    KeysFrom5();
    ConsDistinct(CONFIG_KEYS[4], CONFIG_KEYS[5..], 0);
    assert CONFIG_KEYS[4..] == [CONFIG_KEYS[4]] + CONFIG_KEYS[5..];
  }

  lemma KeysFrom3()
    ensures Distinct(CONFIG_KEYS[3..])
  {
    KeysFrom4();
    ConsDistinct(CONFIG_KEYS[3], CONFIG_KEYS[4..], 0);
    assert CONFIG_KEYS[3..] == [CONFIG_KEYS[3]] + CONFIG_KEYS[4..];
  }

  lemma KeysFrom2()
    ensures Distinct(CONFIG_KEYS[2..])
  {
    KeysFrom3();
    ConsDistinct(CONFIG_KEYS[2], CONFIG_KEYS[3..], 0);
    assert CONFIG_KEYS[2..] == [CONFIG_KEYS[2]] + CONFIG_KEYS[3..];
  }

  lemma KeysFrom1()
    ensures Distinct(CONFIG_KEYS[1..])
  {
    KeysFrom2();
    ConsDistinct(CONFIG_KEYS[1], CONFIG_KEYS[2..], 0);
    assert CONFIG_KEYS[1..] == [CONFIG_KEYS[1]] + CONFIG_KEYS[2..];
  }

  lemma KeysFrom0()
    ensures Distinct(CONFIG_KEYS[0..])
  {
    KeysFrom1();
    ConsDistinct(CONFIG_KEYS[0], CONFIG_KEYS[1..], 0);
    assert CONFIG_KEYS[0..] == [CONFIG_KEYS[0]] + CONFIG_KEYS[1..];
  }

  lemma NamedKeysDistinct()
    ensures Distinct(CONFIG_KEYS)
  {
    KeysFrom0();
    assert CONFIG_KEYS[0..] == CONFIG_KEYS;
  }

  lemma ConfigKeysListed()
    ensures KeysOf(NAMED_KEYS) + [ENABLED_KEY] == CONFIG_KEYS
  {
    var ks := KeysOf(NAMED_KEYS);
    forall i | 0 <= i < |NAMED_KEYS| ensures ks[i] == CONFIG_KEYS[i] {
      assert ks[i] == NAMED_KEYS[i].0;
    }
    assert ks + [ENABLED_KEY] == CONFIG_KEYS;
  }

  /** The stored dict has one entry per key, named keys first and the dataset setting last. */
  lemma SettingsKeys(fields: seq<(string, Value)>, env: map<string, string>)
    ensures Keys(Settings(fields, env)) == CONFIG_KEYS
    ensures Wf(Settings(fields, env))
  {
    var d := Settings(fields, env);
    NamedKeysDistinct();
    ConfigKeysListed();
    assert Keys(d) == KeysOf(NAMED_KEYS) + [ENABLED_KEY];
  }

  /** A named key holds its environment variable when that is set (even to ""), else the YAML value or `None`. */
  lemma EnvOverYaml(fields: seq<(string, Value)>, env: map<string, string>, i: nat)
    requires i < |NAMED_KEYS|
    ensures NAMED_KEYS[i].1 in env ==> FindOr(Settings(fields, env), NAMED_KEYS[i].0, Null) == Str(env[NAMED_KEYS[i].1])
    ensures NAMED_KEYS[i].1 !in env ==> FindOr(Settings(fields, env), NAMED_KEYS[i].0, Null) == Get(fields, NAMED_KEYS[i].0)
    ensures Grouping.Find(Settings(fields, env), NAMED_KEYS[i].0).Some?
  {
    SettingsKeys(fields, env);
    FindEntry(Settings(fields, env), i);
  }

  /** The dataset setting is always a list: the YAML list itself, `[]` when absent, `[v]` for any other `v`. */
  lemma EnabledIsList(fields: seq<(string, Value)>, env: map<string, string>)
    ensures FindOr(Settings(fields, env), ENABLED_KEY, Null).List?
    ensures FindOr(Settings(fields, env), ENABLED_KEY, Null) == WrapList(GetOr(fields, ENABLED_KEY, List([])))
    ensures (forall i :: 0 <= i < |fields| ==> fields[i].0 != ENABLED_KEY)
            ==> FindOr(Settings(fields, env), ENABLED_KEY, Null) == List([])
  {
    SettingsKeys(fields, env);
    FindEntry(Settings(fields, env), |NAMED_KEYS|);
  }

  /** The environment never reaches the dataset setting. */
  lemma EnabledIgnoresEnv(fields: seq<(string, Value)>, env: map<string, string>, env': map<string, string>)
    ensures FindOr(Settings(fields, env), ENABLED_KEY, Null) == FindOr(Settings(fields, env'), ENABLED_KEY, Null)
  {
    EnabledIsList(fields, env);
    EnabledIsList(fields, env');
  }

  /** A variable that names no key has no effect on the stored dict. */
  lemma UnreadVariable(fields: seq<(string, Value)>, env: map<string, string>, name: string, v: string)
    requires forall i :: 0 <= i < |NAMED_KEYS| ==> NAMED_KEYS[i].1 != name
    ensures Settings(fields, env[name := v]) == Settings(fields, env)
  {
    var a := Named(fields, env[name := v]);
    var b := Named(fields, env);
    forall i | 0 <= i < |NAMED_KEYS| ensures a[i] == b[i] {
      assert NAMED_KEYS[i].1 != name;
    }
    assert a == b;
  }

  /** The login URL key reads `WORLDQUAN_LOGIN_URL`: setting `WORLDQUANT_LOGIN_URL` changes nothing. */
  lemma LoginUrlVariable(fields: seq<(string, Value)>, env: map<string, string>, v: string)
    ensures FindOr(Settings(fields, env), "worldquant_login_url", Null)
         == EnvOr(env, "WORLDQUAN_LOGIN_URL", Get(fields, "worldquant_login_url"))
    ensures Settings(fields, env["WORLDQUANT_LOGIN_URL" := v]) == Settings(fields, env)
  {
    EnvOverYaml(fields, env, 6);
    UnreadVariable(fields, env, "WORLDQUANT_LOGIN_URL", v);
  }

  /** The API auth key reads `WORLDQUAN_API_AUTH`: setting `WORLDQUANT_API_AUTH` changes nothing. */
  lemma ApiAuthVariable(fields: seq<(string, Value)>, env: map<string, string>, v: string)
    ensures FindOr(Settings(fields, env), "worldquant_api_auth", Null)
         == EnvOr(env, "WORLDQUAN_API_AUTH", Get(fields, "worldquant_api_auth"))
    ensures Settings(fields, env["WORLDQUANT_API_AUTH" := v]) == Settings(fields, env)
  {
    EnvOverYaml(fields, env, 7);
    UnreadVariable(fields, env, "WORLDQUANT_API_AUTH", v);
  }

  /** A missing file raises; an empty file loads as `{}`, so every key falls back to the environment or `None`. */
  lemma LoadOutcomes(doc: Value, env: map<string, string>)
    ensures Load(Missing, env) == Err("FileNotFoundError")
    ensures !Truthy(doc) ==> Load(Present(doc), env) == Ok(Settings([], env))
    ensures Truthy(doc) && !doc.Object? ==> Load(Present(doc), env) == Err("AttributeError")
    ensures doc.Object? ==> Load(Present(doc), env) == Ok(Settings(doc.fields, env))
  {
  }

  /** Once an instance exists, constructing with any file, or looking up, leaves the state as it is. */
  lemma LoadedOnce(c: ODict<string, Value>, file: ConfigFile, env: map<string, string>, key: string, default: Value)
    ensures AfterNew(Snapshot(true, c), file, env) == (Snapshot(true, c), None)
    ensures AfterGet(Snapshot(true, c), key, default, file, env) == (Snapshot(true, c), Ok(FindOr(c, key, default)))
    ensures AfterAll(Snapshot(true, c), file, env) == (Snapshot(true, c), Ok(c))
  {
  }

  /** The first lookup loads the file; an absent key then gives the default. */
  lemma FirstGet(fields: seq<(string, Value)>, env: map<string, string>, key: string, default: Value)
    requires key != ENABLED_KEY && forall i :: 0 <= i < |NAMED_KEYS| ==> NAMED_KEYS[i].0 != key
    ensures AfterGet(Snapshot(false, Empty()), key, default, Present(Object(fields)), env)
         == (Snapshot(true, Settings(fields, env)), Ok(default))
  {
    SettingsKeys(fields, env);
    assert key !in Keys(Settings(fields, env));
  }

  // ---------------------------------------------------------------------
  // A failed first load is never retried

  /**
   * As written, `_instance` is set before `_load_config` runs, so after a
   * first construction fails on a missing file every later lookup answers
   * from the empty class-level dict, even once the file exists.
   */
  lemma FailedLoadSticks(env: map<string, string>, fields: seq<(string, Value)>, i: nat)
    requires i < |NAMED_KEYS|
    ensures AfterNew(Snapshot(false, Empty()), Missing, env) == (Snapshot(true, Empty()), Some("FileNotFoundError"))
    ensures AfterGet(Snapshot(true, Empty()), NAMED_KEYS[i].0, Null, Present(Object(fields)), env)
         == (Snapshot(true, Empty()), Ok(Null))
    ensures Grouping.Find(Settings(fields, env), NAMED_KEYS[i].0).Some?
  {
    EnvOverYaml(fields, env, i);
  }

  /** Construction that records the instance only once the load has succeeded. */
  function AfterNewFixed(s: Snapshot, file: ConfigFile, env: map<string, string>): (Snapshot, Option<string>)
  {
    if s.instance then (s, None)
    else
      match Load(file, env)
      case Err(e) => (s, Some(e))
      case Ok(c) => (Snapshot(true, c), None)
  }

  /** With the corrected construction an instance always holds a loaded dict, and a failure can be retried. */
  lemma FixedLoadRetries(s: Snapshot, file: ConfigFile, env: map<string, string>)
    requires !s.instance
    ensures Load(file, env).Err? ==> AfterNewFixed(s, file, env).0 == s
    ensures Load(file, env).Ok? ==> AfterNewFixed(s, file, env) == (Snapshot(true, Load(file, env).value), None)
    ensures AfterNewFixed(s, file, env).0.instance ==> AfterNewFixed(s, file, env).0.config == Load(file, env).value
  {
  }
}
