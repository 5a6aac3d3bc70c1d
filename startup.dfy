/**
 * `setup`: pick the configuration path, load and merge the configuration,
 * select the log level, overlay the Supervisor's broker coordinates when
 * running as an add-on, and derive the MQTT client's parameters.
 */
module Startup {
  import opened Wrappers
  import opened PyValues
  import Config
  import Logging
  import SupervisorMqtt
  import MqttSetup

  datatype StartupError =
    | ConfigFailed(error: Config.ConfigError)
    | LogLevelNotText                // `log_level.upper()` on a non-string raises
    | UnknownLevel(name: string)     // `logger.setLevel` on an unregistered name raises ValueError
    | MissingMqttKey(key: string)    // `mqtt_config[key]` raises KeyError

  /** What `setup` returns: the configuration (as mutated), the log level and the client's configuration. */
  datatype Started = Started(config: Config.Config, level: Logging.Level, addon: bool, plan: MqttSetup.ClientPlan)

  /** The `mqtt` section `setup` hands to `mqtt_client_setup`. */
  function MqttBeforeClient(loaded: Config.Config, addon: bool, supervisorData: Option<Value>): (m: Section)
    requires "mqtt" in loaded && loaded["mqtt"].Dict?
    ensures !addon ==> m == loaded["mqtt"].d
    ensures addon ==> m == SupervisorMqtt.Overlay(loaded["mqtt"].d, supervisorData)
  {
    if addon then SupervisorMqtt.Overlay(loaded["mqtt"].d, supervisorData) else loaded["mqtt"].d
  }

  /**
   * What `setup()` returns or raises. `argv` is `sys.argv`, `supervisorToken`
   * the environment's SUPERVISOR_TOKEN, `loaded` the parsed configuration file
   * (None when it cannot be opened or parsed) and `supervisorData` the `data`
   * of the Supervisor's reply (None when the request failed).
   */
  function SetupOutcome(argv: seq<string>, supervisorToken: Option<string>, loaded: Option<Value>,
                        supervisorData: Option<Value>): (r: Result<Started, StartupError>)
    ensures r.Success? ==> r.value.addon == supervisorToken.Some? && r.value.plan.clientId == "rtlamr2mqtt"
    ensures r.Success? ==> Config.LoadConfig(Config.ConfigPath(argv), loaded).Success?
  {
    var addon := supervisorToken.Some?;
    match Config.LoadConfig(Config.ConfigPath(argv), loaded)
    case Failure(e) => Failure(ConfigFailed(e))
    case Success(file) =>
      var levelName := file["general"].d["log_level"];
      if !levelName.Str? then Failure(LogLevelNotText)
      else if !Logging.Accepted(Logging.LevelFor(levelName.s)) then Failure(UnknownLevel(levelName.s))
      else match MqttSetup.ClientSetup(MqttBeforeClient(file, addon, supervisorData))
        case Failure(k) => Failure(MissingMqttKey(k))
        case Success(client) =>
          Success(Started(file["mqtt" := Dict(client.mqtt)], Logging.LevelFor(levelName.s), addon, client.plan))
  }

  /** `setup()`, step by step; it ends exactly as `SetupOutcome` says. */
  method Setup(argv: seq<string>, supervisorToken: Option<string>, loaded: Option<Value>, supervisorData: Option<Value>)
    returns (r: Result<Started, StartupError>)
    ensures r == SetupOutcome(argv, supervisorToken, loaded, supervisorData)
  {
    var addon := supervisorToken.Some?;
    var path := Config.ConfigPath(argv);
    var file := Config.LoadConfig(path, loaded);
    if file.Failure? {
      return Failure(ConfigFailed(file.error));
    }
    var mainConfig := file.value;
    var levelName := mainConfig["general"].d["log_level"];
    if !levelName.Str? {
      return Failure(LogLevelNotText);
    }
    var level := Logging.LevelFor(levelName.s);
    if !Logging.Accepted(level) {
      return Failure(UnknownLevel(levelName.s));
    }
    var mqtt := mainConfig["mqtt"].d;
    if addon {
      mqtt := SupervisorMqtt.Overlay(mqtt, supervisorData);
    }
    assert mqtt == MqttBeforeClient(mainConfig, addon, supervisorData);
    var client := MqttSetup.ClientSetup(mqtt);
    if client.Failure? {
      return Failure(MissingMqttKey(client.error));
    }
    // `mqtt_client_setup` adds `lwt_topic` to the very dictionary `main_config` holds.
    mainConfig := mainConfig["mqtt" := Dict(client.value.mqtt)];
    r := Success(Started(mainConfig, level, addon, client.value.plan));
  }

  /** Setup stops with the configuration error exactly when loading the configuration fails. */
  lemma SetupConfigFailure(argv: seq<string>, supervisorToken: Option<string>, loaded: Option<Value>,
                           supervisorData: Option<Value>)
    ensures var r := SetupOutcome(argv, supervisorToken, loaded, supervisorData);
      var file := Config.LoadConfig(Config.ConfigPath(argv), loaded);
      && (file.Failure? <==> r.Failure? && r.error.ConfigFailed?)
      && (file.Failure? ==> r == Failure(ConfigFailed(file.error)))
  {
    var file := Config.LoadConfig(Config.ConfigPath(argv), loaded);
    var r := SetupOutcome(argv, supervisorToken, loaded, supervisorData);
    if file.Success? {
      var levelName := file.value["general"].d["log_level"];
      if levelName.Str? && Logging.Accepted(Logging.LevelFor(levelName.s)) {
        var mqtt := MqttBeforeClient(file.value, supervisorToken.Some?, supervisorData);
        assert r.Failure? ==> r == Failure(MissingMqttKey(MqttSetup.ClientSetup(mqtt).error));
      }
    }
  }

  /**
   * Once the configuration loads, setup fails on the log level exactly when
   * `general.log_level` is not text, or names a level `setLevel` rejects;
   * otherwise the level is the one its name selects.
   */
  lemma SetupLogLevel(argv: seq<string>, supervisorToken: Option<string>, loaded: Option<Value>,
                      supervisorData: Option<Value>)
    requires Config.LoadConfig(Config.ConfigPath(argv), loaded).Success?
    ensures var r := SetupOutcome(argv, supervisorToken, loaded, supervisorData);
      var file := Config.LoadConfig(Config.ConfigPath(argv), loaded).value;
      && (r == Failure(LogLevelNotText) <==> !file["general"].d["log_level"].Str?)
      && (file["general"].d["log_level"].Str? ==>
            var name := file["general"].d["log_level"].s;
            (r == Failure(UnknownLevel(name)) <==> !Logging.Accepted(Logging.LevelFor(name))))
      && (r.Success? ==>
            && r.value.addon == supervisorToken.Some?
            && r.value.level == Logging.LevelFor(file["general"].d["log_level"].s)
            && Logging.Accepted(r.value.level))
  {
  }

  /**
   * A successful setup holds the client parameters derived from the (possibly
   * overlaid) `mqtt` section, and its configuration is the loaded one with
   * `lwt_topic` added to `mqtt` and nothing else changed.
   */
  lemma SetupSucceeds(argv: seq<string>, supervisorToken: Option<string>, loaded: Option<Value>,
                      supervisorData: Option<Value>)
    requires SetupOutcome(argv, supervisorToken, loaded, supervisorData).Success?
    ensures var started := SetupOutcome(argv, supervisorToken, loaded, supervisorData).value;
      var file := Config.LoadConfig(Config.ConfigPath(argv), loaded).value;
      var mqtt := MqttBeforeClient(file, supervisorToken.Some?, supervisorData);
      && MqttSetup.ClientSetup(mqtt).Success?
      && started.plan == MqttSetup.ClientSetup(mqtt).value.plan
      && started.config.Keys == file.Keys
      && (forall s :: s in file && s != "mqtt" ==> started.config[s] == file[s])
      && started.config["mqtt"] == Dict(mqtt["lwt_topic" := Str(started.plan.will.topic)])
  {
  }

  /** A KeyError during setup names the first parameter `mqtt_client_setup` found missing. */
  lemma SetupMissingKey(argv: seq<string>, supervisorToken: Option<string>, loaded: Option<Value>,
                        supervisorData: Option<Value>)
    requires SetupOutcome(argv, supervisorToken, loaded, supervisorData).Failure?
    requires SetupOutcome(argv, supervisorToken, loaded, supervisorData).error.MissingMqttKey?
    ensures var file := Config.LoadConfig(Config.ConfigPath(argv), loaded).value;
      MqttSetup.ClientSetup(MqttBeforeClient(file, supervisorToken.Some?, supervisorData))
        == Failure(SetupOutcome(argv, supervisorToken, loaded, supervisorData).error.key)
  {
  }

  /**
   * The defaults have no `base_topic` and the Supervisor never supplies one:
   * unless the configuration file sets `mqtt.base_topic`, setup stops with a
   * KeyError on it.
   */
  lemma BaseTopicMustComeFromFile(file: Config.Config, addon: bool, supervisorData: Option<Value>)
    requires Config.HasDefaultShape(file) && "base_topic" !in file["mqtt"].d
    ensures MqttSetup.ClientSetup(MqttBeforeClient(file, addon, supervisorData)) == Failure("base_topic")
  {
    assert "base_topic" !in SupervisorMqtt.BrokerKeys;
  }

  /** With the default `mqtt` section alone, as a file that only lists meters leaves it, setup fails on `base_topic`. */
  lemma DefaultMqttLacksBaseTopic()
    ensures MqttSetup.ClientSetup(Config.DefaultConfig["mqtt"]) == Failure("base_topic")
  {
    assert "base_topic" !in Config.DefaultConfig["mqtt"];
  }
}
