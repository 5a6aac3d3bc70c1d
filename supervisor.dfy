/**
 * The broker coordinates fetched from the Home Assistant Supervisor
 * (`get_config_from_supervisor`) and their overlay on the `mqtt` section
 * (`main_config['mqtt'].update(...)` in `setup`).
 */
module SupervisorMqtt {
  import opened Wrappers
  import opened PyValues

  /** The only keys the Supervisor result can carry. */
  const BrokerKeys: set<string> := {"host", "port", "user", "password", "tls_enabled"}

  /**
   * The mapping `get_config_from_supervisor` returns, given the `data` member
   * of the reply: None when the request raised, the status was not OK or the
   * reply had no `data`. A `data` that is not a mapping makes `d.get` raise.
   * When `int(port)` raises, `host` has already been stored and is returned alone.
   */
  function FromSupervisor(data: Option<Value>): (r: Section)
    ensures r.Keys <= BrokerKeys
    ensures data.None? || !data.value.Dict? ==> r == map[]
    ensures data.Some? && data.value.Dict? ==> "host" in r && r["host"] == Get(data.value.d, "host", Null)
    ensures data.Some? && data.value.Dict? && ToInt(Get(data.value.d, "port", Null)).None? ==> r.Keys == {"host"}
    ensures data.Some? && data.value.Dict? && ToInt(Get(data.value.d, "port", Null)).Some? ==>
      && r.Keys == BrokerKeys
      && r["port"] == Int(ToInt(Get(data.value.d, "port", Null)).value)
      && r["user"] == Get(data.value.d, "username", Null)
      && r["password"] == Get(data.value.d, "password", Null)
      && r["tls_enabled"] == Get(data.value.d, "ssl", Bool(false))
  {
    if data.None? || !data.value.Dict? then map[]
    else
      var d := data.value.d;
      var withHost := map["host" := Get(d, "host", Null)];
      match ToInt(Get(d, "port", Null))
      case None => withHost
      case Some(port) =>
        withHost["port" := Int(port)]
                ["user" := Get(d, "username", Null)]
                ["password" := Get(d, "password", Null)]
                ["tls_enabled" := Get(d, "ssl", Bool(false))]
  }

  /** `mqtt.update(FromSupervisor(data))`. */
  function Overlay(mqtt: Section, data: Option<Value>): (r: Section)
    ensures r.Keys == mqtt.Keys + FromSupervisor(data).Keys
  {
    Union(mqtt, FromSupervisor(data))
  }

  /**
   * The overlay replaces exactly the broker keys the Supervisor returned;
   * every other key (topics, TLS files, keepalive) keeps its value, and no
   * key other than a broker key appears.
   */
  lemma OverlayKeepsOtherKeys(mqtt: Section, data: Option<Value>, k: string)
    requires k !in FromSupervisor(data)
    ensures k in Overlay(mqtt, data) <==> k in mqtt
    ensures k in mqtt ==> Overlay(mqtt, data)[k] == mqtt[k]
  {
  }

  lemma OverlayTakesSupervisorValues(mqtt: Section, data: Option<Value>, k: string)
    requires k in FromSupervisor(data)
    ensures k in BrokerKeys && Overlay(mqtt, data)[k] == FromSupervisor(data)[k]
  {
  }

  /** A failed fetch returns `{}` and leaves the section identical. */
  lemma FailedFetchChangesNothing(mqtt: Section, data: Option<Value>)
    requires data.None? || !data.value.Dict?
    ensures Overlay(mqtt, data) == mqtt
  {
  }
}
