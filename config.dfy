/**
 * Configuration loading of the add-on (`merge_config` and `load_config`):
 * the built-in defaults, the extension check that picks a parser, and the
 * shallow per-section merge of the user file over the defaults.
 */
module Config {
  import opened Wrappers
  import opened PyValues
  import Text

  /** The merged configuration: section name to section (or, for `meters`, any value). */
  type Config = map<string, Value>

  const Meters := "meters"

  datatype ConfigError =
    | UnsupportedFormat(fileType: string)  // logged critical, then sys.exit(-1)
    | CannotLoad                           // open or parse raised; logged, then sys.exit(-1)
    | NotAMapping                          // the document is not a mapping: `tomerge.keys()` raises
    | SectionNotMapping                    // a default section given as a non-mapping: `{**x}` raises

  /** The defaults `load_config` starts from. */
  const DefaultConfig: map<string, Section> := map[
    "general" := map[
      "log_level" := Str("debug"),
      "sleep_for" := Int(300),
      "device_id" := Str("single"),
      "rtltcp_server" := Str("local")],
    "mqtt" := map[
      "host" := Str("127.0.0.1"),
      "port" := Int(1883),
      "keepalive" := Int(60),
      "tls_enabled" := Bool(false)],
    "custom_parameters" := map[
      "rtltcp" := Str("-s 2048000"),
      "rtlamr" := Str("-unique=true")]]

  // ---------------------------------------------------------------- merge

  /** Every section the defaults and the user file share is a mapping in the user file. */
  predicate Mergeable(defaults: map<string, Section>, user: map<string, Value>)
  {
    forall s :: s in defaults && s in user ==> user[s].Dict?
  }

  /** `merged[k]` for a default section `k`, as the loop of `merge_config` builds it. */
  function MergedSection(defaults: map<string, Section>, user: map<string, Value>, s: string): Value
    requires s in defaults && (s in user ==> user[s].Dict?)
  {
    if s in user then Dict(Union(defaults[s], user[s].d)) else Dict(defaults[s])
  }

  /** `merged['meters']`: the user's value verbatim, or an empty mapping. */
  function MetersOf(user: map<string, Value>): Value
  {
    if Meters in user then user[Meters] else Dict(map[])
  }

  /**
   * Reference definition of a merge, key by key: exactly the default sections
   * plus `meters`; in a default section, the user's value for a key where the
   * user file has one and the default otherwise; `meters` from the user file.
   */
  ghost predicate IsMergeOf(defaults: map<string, Section>, user: map<string, Value>, merged: Config)
  {
    && Mergeable(defaults, user)
    && merged.Keys == defaults.Keys + {Meters}
    && merged[Meters] == MetersOf(user)
    && forall s :: s in defaults && s != Meters ==>
         && merged[s].Dict?
         && merged[s].d.Keys == defaults[s].Keys + (if s in user then user[s].d.Keys else {})
         && forall k :: k in merged[s].d ==>
              merged[s].d[k] == if s in user && k in user[s].d then user[s].d[k] else defaults[s][k]
  }

  /** At most one configuration is a merge of given defaults and user file. */
  lemma MergeOfIsUnique(defaults: map<string, Section>, user: map<string, Value>, m1: Config, m2: Config)
    requires IsMergeOf(defaults, user, m1) && IsMergeOf(defaults, user, m2)
    ensures m1 == m2
  {
    forall s | s in m1
      ensures m1[s] == m2[s]
    {
      if s != Meters {
        assert m1[s].d == m2[s].d;
      }
    }
  }

  /** `merge_config(defaults, user)` as a value; Failure where Python raises TypeError. */
  function Merge(defaults: map<string, Section>, user: map<string, Value>): (r: Result<Config, ConfigError>)
    ensures r.Success? <==> Mergeable(defaults, user)
    ensures r.Success? ==> IsMergeOf(defaults, user, r.value)
    ensures r.Failure? ==> r.error == SectionNotMapping
  {
    if !Mergeable(defaults, user) then Failure(SectionNotMapping)
    else
      var sections := map s | s in defaults :: MergedSection(defaults, user, s);
      Success(sections[Meters := MetersOf(user)])
  }

  /** `merge_config`, as the loop over the default sections fills `merged`. */
  method MergeConfig(defaults: map<string, Section>, user: map<string, Value>) returns (r: Result<Config, ConfigError>)
    ensures r == Merge(defaults, user)
  {
    var merged: Config := map[];
    var todo := defaults.Keys;
    while todo != {}
      invariant todo <= defaults.Keys
      invariant merged.Keys == defaults.Keys - todo
      invariant forall s :: s in merged ==> (s in user ==> user[s].Dict?)
      invariant forall s :: s in merged ==> merged[s] == MergedSection(defaults, user, s)
      decreases todo
    {
      var s :| s in todo;
      if s in user {
        if !user[s].Dict? {
          return Failure(SectionNotMapping);
        }
        merged := merged[s := Dict(Union(defaults[s], user[s].d))];
      } else {
        merged := merged[s := Dict(defaults[s])];
      }
      todo := todo - {s};
    }
    assert merged == map s | s in defaults :: MergedSection(defaults, user, s);
    merged := merged[Meters := MetersOf(user)];
    r := Success(merged);
  }

  /** Every default section and every default key survives; user-only sections other than `meters` are dropped. */
  lemma MergeKeepsDefaultsOnly(defaults: map<string, Section>, user: map<string, Value>)
    requires Merge(defaults, user).Success?
    ensures var m := Merge(defaults, user).value;
      && (forall s :: s in defaults ==> s in m)
      && (forall s :: s in defaults && s != Meters ==> m[s].Dict? && defaults[s].Keys <= m[s].d.Keys)
      && (forall s :: s in user && s !in defaults && s != Meters ==> s !in m)
  {
  }

  /** In a default section the user's value wins where it exists; the key set is the union. */
  lemma MergeUserWins(defaults: map<string, Section>, user: map<string, Value>, s: string, k: string)
    requires Merge(defaults, user).Success? && s in defaults && s != Meters
    ensures var sec := Merge(defaults, user).value[s];
      && sec.Dict?
      && (k in sec.d <==> k in defaults[s] || (s in user && k in user[s].d))
      && (s in user && k in user[s].d ==> sec.d[k] == user[s].d[k])
      && (k in defaults[s] && (s !in user || k !in user[s].d) ==> sec.d[k] == defaults[s][k])
  {
  }

  /** A default section the user file lacks is the default section unchanged. */
  lemma MergeAbsentSection(defaults: map<string, Section>, user: map<string, Value>, s: string)
    requires Merge(defaults, user).Success? && s in defaults && s != Meters && s !in user
    ensures Merge(defaults, user).value[s] == Dict(defaults[s])
  {
  }

  /** `meters` is the user's value verbatim, or `{}`; it is never merged with a default. */
  lemma MergeMetersVerbatim(defaults: map<string, Section>, user: map<string, Value>)
    requires Merge(defaults, user).Success?
    ensures Merge(defaults, user).value[Meters] == if Meters in user then user[Meters] else Dict(map[])
  {
  }

  const ExampleMeter := Dict(map["protocol" := Str("scm"), "name" := Str("water")])

  /** A user file with `general: {sleep_for: 60}`, `mqtt: {host: 10.0.0.5}` and one meter. */
  const ExampleUser: map<string, Value> := map[
    "general" := Dict(map["sleep_for" := Int(60)]),
    "mqtt" := Dict(map["host" := Str("10.0.0.5")]),
    Meters := Dict(map["12345678" := ExampleMeter])]

  /** Merged with the defaults, the user's values win and the other defaults stay. */
  lemma MergeExampleSections()
    ensures Merge(DefaultConfig, ExampleUser).Success?
    ensures var m := Merge(DefaultConfig, ExampleUser).value;
      && m["general"].d["sleep_for"] == Int(60)
      && m["general"].d["log_level"] == Str("debug")
      && m["mqtt"].d["host"] == Str("10.0.0.5")
      && m["mqtt"].d["port"] == Int(1883)
  {
    ExampleIsMergeable();
    var general, mqtt := ExampleUser["general"].d, ExampleUser["mqtt"].d;
    assert "sleep_for" in general && "log_level" !in general && general["sleep_for"] == Int(60);
    assert "host" in mqtt && "port" !in mqtt && mqtt["host"] == Str("10.0.0.5");
    assert DefaultConfig["general"]["log_level"] == Str("debug") && DefaultConfig["mqtt"]["port"] == Int(1883);
    MergeUserWins(DefaultConfig, ExampleUser, "general", "sleep_for");
    MergeUserWins(DefaultConfig, ExampleUser, "general", "log_level");
    MergeUserWins(DefaultConfig, ExampleUser, "mqtt", "host");
    MergeUserWins(DefaultConfig, ExampleUser, "mqtt", "port");
  }

  /** ... and `meters` holds only the user's one meter, while the untouched section is the default. */
  lemma MergeExampleMeters()
    ensures Merge(DefaultConfig, ExampleUser).Success?
    ensures var m := Merge(DefaultConfig, ExampleUser).value;
      && m[Meters] == Dict(map["12345678" := ExampleMeter])
      && m["custom_parameters"] == Dict(DefaultConfig["custom_parameters"])
  {
    ExampleIsMergeable();
    MergeMetersVerbatim(DefaultConfig, ExampleUser);
    MergeAbsentSection(DefaultConfig, ExampleUser, "custom_parameters");
  }

  lemma ExampleIsMergeable()
    ensures Mergeable(DefaultConfig, ExampleUser)
  {
    assert ExampleUser.Keys == {"general", "mqtt", Meters};
    assert DefaultConfig.Keys == {"general", "mqtt", "custom_parameters"};
  }

  // ------------------------------------------------------ extension check

  const Extensions: seq<string> := [".yaml", ".yml", ".json", ".js"]

  /** `config_path[config_path.rfind('.'):]`. */
  function FileType(path: string): (t: string)
    ensures '.' in path ==> 1 <= |t| <= |path| && t[0] == '.' && '.' !in t[1..] && t == path[|path| - |t|..]
    ensures '.' !in path ==> t == (if path == "" then "" else [path[|path| - 1]])
  {
    Text.SliceFrom(path, Text.RFind(path, '.'))
  }

  datatype Format = Yaml | Json

  /** The parser `load_config` uses for a path, None when the extension is refused. */
  function FormatOf(path: string): (f: Option<Format>)
    ensures f.Some? <==> FileType(path) in Extensions
    ensures f == Some(Yaml) <==> FileType(path) in [".yaml", ".yml"]
    ensures f == Some(Json) <==> FileType(path) in [".json", ".js"]
  {
    var t := FileType(path);
    if t == ".yaml" || t == ".yml" then Some(Yaml)
    else if t == ".json" || t == ".js" then Some(Json)
    else None
  }

  /** With a dot, the file type is the suffix from the last dot. */
  lemma FileTypeIsLastSuffix(path: string, j: int)
    requires 0 <= j < |path| && path[j] == '.' && '.' !in path[j + 1..]
    ensures FileType(path) == path[j..]
  {
  }

  /** Without a dot, the "file type" is the last character at most, and the path is refused. */
  lemma NoDotIsRefused(path: string)
    requires '.' !in path
    ensures FileType(path) == (if path == "" then "" else [path[|path| - 1]])
    ensures FormatOf(path) == None
  {
  }

  /**
   * A path is accepted exactly when the suffix starting at its last dot is
   * one of the four extensions.
   */
  lemma AcceptedIff(path: string)
    ensures FormatOf(path).Some? <==>
      exists j :: 0 <= j < |path| && path[j] == '.' && '.' !in path[j + 1..] && path[j..] in Extensions
  {
    if '.' in path {
      var j := Text.RFind(path, '.');
      FileTypeIsLastSuffix(path, j);
      forall j' | 0 <= j' < |path| && path[j'] == '.' && '.' !in path[j' + 1..]
        ensures j' == j
      {
        FileTypeIsLastSuffix(path, j');
      }
    } else {
      NoDotIsRefused(path);
    }
  }

  // ----------------------------------------------------------- load_config

  /**
   * The keys a loaded configuration always has because the defaults have
   * them: the log level, and the broker address, keepalive and TLS switch.
   */
  predicate HasDefaultShape(c: Config)
  {
    && "general" in c && c["general"].Dict? && "log_level" in c["general"].d
    && "mqtt" in c && c["mqtt"].Dict?
    && "host" in c["mqtt"].d && "port" in c["mqtt"].d
    && "keepalive" in c["mqtt"].d && "tls_enabled" in c["mqtt"].d
  }

  lemma MergedHasDefaultShape(user: map<string, Value>, merged: Config)
    requires IsMergeOf(DefaultConfig, user, merged)
    ensures HasDefaultShape(merged)
  {
    assert "general" in DefaultConfig && "log_level" in DefaultConfig["general"];
    assert "mqtt" in DefaultConfig && DefaultConfig["mqtt"].Keys == {"host", "port", "keepalive", "tls_enabled"};
  }

  /**
   * `load_config(path)`, with the file's parsed content as a parameter:
   * `loaded` is what the parser `FormatOf(path)` produced, None when opening
   * or parsing the file raised.
   */
  function LoadConfig(path: string, loaded: Option<Value>): (r: Result<Config, ConfigError>)
    ensures r.Success? <==>
      FileType(path) in Extensions && loaded.Some? && loaded.value.Dict? && Mergeable(DefaultConfig, loaded.value.d)
    ensures r.Success? ==> IsMergeOf(DefaultConfig, loaded.value.d, r.value)
    ensures r.Success? ==> HasDefaultShape(r.value)
    ensures FileType(path) !in Extensions ==> r == Failure(UnsupportedFormat(FileType(path)))
    ensures FileType(path) in Extensions && loaded.None? ==> r == Failure(CannotLoad)
  {
    if FormatOf(path).None? then Failure(UnsupportedFormat(FileType(path)))
    else if loaded.None? then Failure(CannotLoad)
    else if !loaded.value.Dict? then Failure(NotAMapping)
    else
      var r := Merge(DefaultConfig, loaded.value.d);
      if r.Success? then MergedHasDefaultShape(loaded.value.d, r.value); r
      else r
  }

  /** Merging a file that only lists meters keeps every default section as it is. */
  lemma MetersOnlyMerge(meters: Value)
    ensures var m := Merge(DefaultConfig, map[Meters := meters]);
      && m.Success?
      && (forall s :: s in DefaultConfig ==> m.value[s] == Dict(DefaultConfig[s]))
      && m.value[Meters] == meters
  {
    var user := map[Meters := meters];
    assert Mergeable(DefaultConfig, user) by {
      assert user.Keys == {Meters};
      assert Meters !in DefaultConfig;
    }
    MergeMetersVerbatim(DefaultConfig, user);
    forall s | s in DefaultConfig
      ensures Merge(DefaultConfig, user).value[s] == Dict(DefaultConfig[s])
    {
      assert s != Meters && s !in user;
      MergeAbsentSection(DefaultConfig, user, s);
    }
  }

  /** A file that only lists meters loads, with every default section as it is. */
  lemma MetersOnlyFileLoads(path: string, meters: Value)
    requires FileType(path) in Extensions
    ensures var r := LoadConfig(path, Some(Dict(map[Meters := meters])));
      && r.Success?
      && (forall s :: s in DefaultConfig ==> r.value[s] == Dict(DefaultConfig[s]))
      && r.value[Meters] == meters
  {
    MetersOnlyMerge(meters);
    LoadIsMerge(path, map[Meters := meters]);
  }

  /** With an accepted extension, loading a mapping is merging it with the defaults. */
  lemma LoadIsMerge(path: string, user: map<string, Value>)
    requires FileType(path) in Extensions
    ensures LoadConfig(path, Some(Dict(user))) == Merge(DefaultConfig, user)
  {
    assert FormatOf(path).Some?;
  }

  /** The configuration path of `setup`: the one argument, else `/data/options.json`. */
  function ConfigPath(argv: seq<string>): (path: string)
    ensures |argv| == 2 ==> path == argv[1]
    ensures |argv| != 2 ==> path == "/data/options.json" && FormatOf(path) == Some(Json)
  {
    if |argv| != 2 then "/data/options.json" else argv[1]
  }
}
