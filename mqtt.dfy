/**
 * The parameters `mqtt_client_setup` derives from the `mqtt` section before
 * it hands them to the MQTT client: the status (last-will) topic, the TLS
 * settings, the credentials, the will and online messages, and the redacted
 * listing of the section.
 */
module MqttSetup {
  import opened Wrappers
  import opened PyValues
  import Text

  datatype CertReqs = CertNone | CertRequired

  datatype Message = Message(topic: string, payload: string, qos: nat, retain: bool)

  datatype Tls = Tls(caCerts: Value, certFile: Value, keyFile: Value, certReqs: CertReqs, insecure: Value)

  datatype Credentials = Credentials(user: Value, password: Value)

  /** What the client is configured with. */
  datatype ClientPlan = ClientPlan(
    clientId: string,
    tls: Option<Tls>,
    credentials: Option<Credentials>,
    will: Message,
    minReconnectDelay: nat,
    maxReconnectDelay: nat,
    online: Message)

  /** The section after setup (it gains `lwt_topic`) and the client's configuration. */
  datatype Prepared = Prepared(mqtt: Section, plan: ClientPlan)

  /** `f'{base_topic}/status'`. */
  function LwtTopic(baseTopic: Value): (t: string)
    ensures |t| >= 7 && t[|t| - 7..] == "/status"
    ensures baseTopic.Str? ==> t == baseTopic.s + "/status"
  {
    Render(baseTopic) + "/status"
  }

  /** `ssl.CERT_NONE if tls_insecure else ssl.CERT_REQUIRED`. */
  function CertReqsFor(insecure: Value): (c: CertReqs)
    ensures c == CertNone <==> Truthy(insecure)
  {
    if Truthy(insecure) then CertNone else CertRequired
  }

  /**
   * The keys `mqtt_client_setup` reads with `mqtt_config[...]` before it
   * connects, in the order it reads them; the TLS keys only when TLS is on.
   */
  function ReadKeys(mqtt: Section): seq<string>
  {
    ["base_topic", "tls_enabled"]
    + if "tls_enabled" in mqtt && Truthy(mqtt["tls_enabled"])
      then ["tls_insecure", "tls_ca", "tls_cert", "tls_keyfile"] else []
  }

  /** The TLS settings, or the first TLS key that is missing. */
  function TlsFor(mqtt: Section): (r: Result<Option<Tls>, string>)
    requires "tls_enabled" in mqtt
    ensures !Truthy(mqtt["tls_enabled"]) ==> r == Success(None)
    ensures Truthy(mqtt["tls_enabled"]) ==>
      (r.Success? <==> "tls_insecure" in mqtt && "tls_ca" in mqtt && "tls_cert" in mqtt && "tls_keyfile" in mqtt)
    ensures r.Success? && r.value.Some? ==>
      r.value.value == Tls(mqtt["tls_ca"], mqtt["tls_cert"], mqtt["tls_keyfile"],
                           CertReqsFor(mqtt["tls_insecure"]), mqtt["tls_insecure"])
    ensures r.Failure? ==> r.error !in mqtt
  {
    if !Truthy(mqtt["tls_enabled"]) then Success(None)
    else if "tls_insecure" !in mqtt then Failure("tls_insecure")
    else if "tls_ca" !in mqtt then Failure("tls_ca")
    else if "tls_cert" !in mqtt then Failure("tls_cert")
    else if "tls_keyfile" !in mqtt then Failure("tls_keyfile")
    else
      var insecure := mqtt["tls_insecure"];
      Success(Some(Tls(mqtt["tls_ca"], mqtt["tls_cert"], mqtt["tls_keyfile"], CertReqsFor(insecure), insecure)))
  }

  /**
   * `mqtt_client_setup(mqtt_config)` up to the connect call. Failure carries
   * the key whose lookup raises KeyError: the first of `ReadKeys` missing.
   */
  function ClientSetup(mqtt: Section): (r: Result<Prepared, string>)
    ensures r.Success? <==>
      && "base_topic" in mqtt && "tls_enabled" in mqtt
      && (Truthy(mqtt["tls_enabled"]) ==>
            "tls_insecure" in mqtt && "tls_ca" in mqtt && "tls_cert" in mqtt && "tls_keyfile" in mqtt)
    ensures r.Failure? ==> exists i :: 0 <= i < |ReadKeys(mqtt)| && r.error == ReadKeys(mqtt)[i] && r.error !in mqtt
                                    && forall j :: 0 <= j < i ==> ReadKeys(mqtt)[j] in mqtt
    ensures r.Success? ==>
      var lwt := LwtTopic(mqtt["base_topic"]);
      && r.value.mqtt == mqtt["lwt_topic" := Str(lwt)]
      && r.value.plan.will == Message(lwt, "Off", 1, false)
      && r.value.plan.online == Message(lwt, "On", 1, false)
      && (r.value.plan.credentials.Some? <==> "user" in mqtt && "password" in mqtt)
      && (r.value.plan.credentials.Some? ==>
            r.value.plan.credentials.value == Credentials(mqtt["user"], mqtt["password"]))
      && (r.value.plan.tls.Some? <==> Truthy(mqtt["tls_enabled"]))
      && (r.value.plan.tls.Some? ==>
            && r.value.plan.tls.value
               == Tls(mqtt["tls_ca"], mqtt["tls_cert"], mqtt["tls_keyfile"],
                      CertReqsFor(mqtt["tls_insecure"]), mqtt["tls_insecure"])
            && (r.value.plan.tls.value.certReqs == CertNone <==> Truthy(mqtt["tls_insecure"])))
      && r.value.plan.clientId == "rtlamr2mqtt"
      && r.value.plan.minReconnectDelay == 1 && r.value.plan.maxReconnectDelay == 120
  {
    assert ReadKeys(mqtt)[..2] == ["base_topic", "tls_enabled"];
    if "base_topic" !in mqtt then
      assert ReadKeys(mqtt)[0] == "base_topic";
      Failure("base_topic")
    else
      var lwt := LwtTopic(mqtt["base_topic"]);
      var cfg := mqtt["lwt_topic" := Str(lwt)];
      if "tls_enabled" !in cfg then
        assert ReadKeys(mqtt)[0] in mqtt && ReadKeys(mqtt)[1] == "tls_enabled";
        Failure("tls_enabled")
      else match TlsFor(cfg)
        case Failure(k) =>
          TlsFailureIsFirstMissing(mqtt, lwt);
          Failure(k)
        case Success(tls) =>
          var credentials :=
            if "user" in cfg && "password" in cfg then Some(Credentials(cfg["user"], cfg["password"])) else None;
          Success(Prepared(cfg, ClientPlan(
            "rtlamr2mqtt",
            tls,
            credentials,
            Message(lwt, "Off", 1, false),
            1, 120,
            Message(lwt, "On", 1, false))))
  }

  /** A missing TLS key is the first key of `ReadKeys` that is missing. */
  lemma TlsFailureIsFirstMissing(mqtt: Section, lwt: string)
    requires "base_topic" in mqtt && "tls_enabled" in mqtt
    requires TlsFor(mqtt["lwt_topic" := Str(lwt)]).Failure?
    ensures var k := TlsFor(mqtt["lwt_topic" := Str(lwt)]).error;
      exists i :: 0 <= i < |ReadKeys(mqtt)| && k == ReadKeys(mqtt)[i] && k !in mqtt
               && forall j :: 0 <= j < i ==> ReadKeys(mqtt)[j] in mqtt
  {
    var cfg := mqtt["lwt_topic" := Str(lwt)];
    var keys := ReadKeys(mqtt);
    assert keys == ["base_topic", "tls_enabled", "tls_insecure", "tls_ca", "tls_cert", "tls_keyfile"];
    var i := if "tls_insecure" !in cfg then 2 else if "tls_ca" !in cfg then 3
             else if "tls_cert" !in cfg then 4 else 5;
    assert TlsFor(cfg).error == keys[i];
  }

  /** The last will and the online marker go to the same topic, with opposite payloads. */
  lemma WillAndOnlineShareTopic(mqtt: Section)
    requires ClientSetup(mqtt).Success?
    ensures var plan := ClientSetup(mqtt).value.plan;
      && plan.will.topic == plan.online.topic == ClientSetup(mqtt).value.mqtt["lwt_topic"].s
      && plan.will.payload != plan.online.payload
  {
  }

  // ---------------------------------------------------- parameter listing

  const ParameterPrefix := " MQTT Parameter: "

  /** The line logged for the password, whatever its value. */
  const RedactedPasswordLine := ParameterPrefix + "PASSWORD => *** REDACTED *** "

  /** The debug line for one `(k, v)` of the section. */
  function ParameterLine(k: string, v: Value): (line: string)
    ensures k == "password" ==> line == RedactedPasswordLine
    ensures k != "password" ==> line == ParameterPrefix + Text.Upper(k) + " => \"" + Render(v) + "\""
  {
    if k == "password" then ParameterPrefix + Text.Upper(k) + " => *** REDACTED *** "
    else ParameterPrefix + Text.Upper(k) + " => \"" + Render(v) + "\""
  }

  /** The password line does not depend on the password. */
  lemma PasswordIsRedacted(v: Value)
    ensures ParameterLine("password", v) == RedactedPasswordLine
  {
    assert Text.Upper("password") == "PASSWORD";
  }

  /** Every other line shows the upper-cased key and, in quotes at its end, the value. */
  lemma OtherValuesAreShown(k: string, v: Value)
    requires k != "password"
    ensures var line := ParameterLine(k, v);
      && |line| == |ParameterPrefix| + |k| + 6 + |Render(v)|
      && line[|ParameterPrefix|..|ParameterPrefix| + |k|] == Text.Upper(k)
      && line[|line| - |Render(v)| - 1..|line| - 1] == Render(v)
  {
  }

  /** The lines logged for the items of `params` visited in the order `order`. */
  function Listing(params: Section, order: seq<string>): (lines: seq<string>)
    requires forall i :: 0 <= i < |order| ==> order[i] in params
    ensures |lines| == |order|
  {
    if order == [] then []
    else
      var last := order[|order| - 1];
      Listing(params, order[..|order| - 1]) + [ParameterLine(last, params[last])]
  }

  /** The i-th line is the line for the i-th item. */
  lemma {:induction false} ListingAt(params: Section, order: seq<string>, i: nat)
    requires forall j :: 0 <= j < |order| ==> order[j] in params
    requires i < |order|
    ensures Listing(params, order)[i] == ParameterLine(order[i], params[order[i]])
    decreases |order|
  {
    if i < |order| - 1 {
      var init := order[..|order| - 1];
      assert init[i] == order[i];
      ListingAt(params, init, i);
    }
  }

  /**
   * The listing redacts every password line, and every key of the section,
   * when the order visits every key, has its own line.
   */
  lemma ListingRedactsAndCovers(params: Section, order: seq<string>)
    requires forall i :: 0 <= i < |order| ==> order[i] in params
    requires forall k :: k in params ==> k in order
    ensures forall i :: 0 <= i < |order| && order[i] == "password" ==>
      Listing(params, order)[i] == RedactedPasswordLine
    ensures forall k :: k in params ==>
      exists i :: 0 <= i < |order| && order[i] == k && Listing(params, order)[i] == ParameterLine(k, params[k])
  {
    forall i | 0 <= i < |order| && order[i] == "password"
      ensures Listing(params, order)[i] == RedactedPasswordLine
    {
      ListingAt(params, order, i);
      PasswordIsRedacted(params[order[i]]);
    }
    forall k | k in params
      ensures exists i :: 0 <= i < |order| && order[i] == k && Listing(params, order)[i] == ParameterLine(k, params[k])
    {
      var i :| 0 <= i < |order| && order[i] == k;
      ListingAt(params, order, i);
    }
  }

  /**
   * The listing loop of `mqtt_client_setup`: one line per item, in the
   * dictionary's iteration order `order`.
   */
  method ListParameters(params: Section, order: seq<string>) returns (lines: seq<string>)
    requires forall i :: 0 <= i < |order| ==> order[i] in params
    ensures lines == Listing(params, order)
  {
    lines := [];
    for i := 0 to |order|
      invariant lines == Listing(params, order[..i])
    {
      assert order[..i + 1][..i] == order[..i];
      lines := lines + [ParameterLine(order[i], params[order[i]])];
    }
    assert order[..|order|] == order;
  }
}
