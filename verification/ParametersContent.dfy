/** What an AgentgatewayParameters object holds after an update, spelled out from the names
    and values of the environment variables of the spec. */
module ParametersContent {
  import opened Wrappers
  import opened Headers
  import opened Otel
  import opened Parameters

  // ------------------------------------------------------------ nested values

  /** A path in two parts. */
  lemma {:induction false} AtAppend(o: Object, path: seq<string>, m: Object, rest: seq<string>)
    requires path != [] && rest != [] && At(o, path) == Some(Obj(m))
    ensures At(o, path + rest) == At(m, rest)
    decreases |path|
  {
    assert (path + rest)[0] == path[0] && (path + rest)[1..] == path[1..] + rest;
    if |path| == 1 {
      assert path[1..] + rest == rest;
    } else {
      AtAppend(o[path[0]].fields, path[1..], m, rest);
    }
  }

  // ------------------------------------------------------------------- tracing

  /** The six values that count: of a general and of a traces variable for each item. */
  datatype Values = Values(endpoint: string, protocol: string, headers: string)

  predicate GeneralValues(envs: seq<EnvVar>, v: Values) {
    && IsLastValue(envs, "OTEL_EXPORTER_OTLP_ENDPOINT", v.endpoint)
    && IsLastValue(envs, "OTEL_EXPORTER_OTLP_PROTOCOL", v.protocol)
    && IsLastValue(envs, "OTEL_EXPORTER_OTLP_HEADERS", v.headers)
  }

  predicate TracesValues(envs: seq<EnvVar>, v: Values) {
    && IsLastValue(envs, "OTEL_EXPORTER_OTLP_TRACES_ENDPOINT", v.endpoint)
    && IsLastValue(envs, "OTEL_EXPORTER_OTLP_TRACES_PROTOCOL", v.protocol)
    && IsLastValue(envs, "OTEL_EXPORTER_OTLP_TRACES_HEADERS", v.headers)
  }

  function Preferred(traces: string, general: string): string {
    if traces != "" then traces else general
  }

  /** A field of the tracing map: the text, or absent if that is empty. */
  predicate TextField(m: Object, k: string, v: string) {
    if v == "" then k !in m else k in m && m[k] == Str(v)
  }

  /** The headers: exactly these texts under these keys, or absent if there is none. */
  predicate HeaderField(m: Object, h: map<string, string>) {
    if h == map[] then "headers" !in m
    else
      && "headers" in m && m["headers"].Obj?
      && m["headers"].fields.Keys == h.Keys
      && forall k | k in h :: m["headers"].fields[k] == Str(h[k])
  }

  lemma ValuesAre(envs: seq<EnvVar>, general: Values, traces: Values)
    requires GeneralValues(envs, general) && TracesValues(envs, traces)
    ensures general == Values(LastValue(envs, Field(General, Endpoint)), LastValue(envs, Field(General, Protocol)),
                              LastValue(envs, Field(General, HeaderList)))
    ensures traces == Values(LastValue(envs, Field(Traces, Endpoint)), LastValue(envs, Field(Traces, Protocol)),
                             LastValue(envs, Field(Traces, HeaderList)))
  {
    GeneralNames();
    TracesNames();
    ValueIs(envs, Field(General, Endpoint), general.endpoint);
    ValueIs(envs, Field(General, Protocol), general.protocol);
    ValueIs(envs, Field(General, HeaderList), general.headers);
    ValueIs(envs, Field(Traces, Endpoint), traces.endpoint);
    ValueIs(envs, Field(Traces, Protocol), traces.protocol);
    ValueIs(envs, Field(Traces, HeaderList), traces.headers);
  }

  lemma ValueIs(envs: seq<EnvVar>, f: Field, v: string)
    requires IsLastValue(envs, NameOf(f), v)
    ensures v == LastValue(envs, f)
  {
    LastValueIsLast(envs, f);
    OneLastValue(envs, NameOf(f), v, LastValue(envs, f));
  }

  /** The map under spec.rawConfig.config.tracing, if there is one. */
  predicate TracingAt(o: Object, m: Object) {
    At(o, ["spec", "rawConfig", "config", "tracing"]) == Some(Obj(m))
  }

  /** The tracing map of a configuration. */
  function TracingMap(t: Tracing): Object {
    RawConfig(t).fields["config"].fields["tracing"].fields
  }

  lemma RawConfigAt(o: Object, t: Tracing)
    requires At(o, ["spec", "rawConfig"]) == Some(RawConfig(t))
    ensures TracingAt(o, TracingMap(t))
  {
    assert ["spec", "rawConfig", "config", "tracing"] == ["spec", "rawConfig"] + ["config", "tracing"];
    AtAppend(o, ["spec", "rawConfig"], RawConfig(t).fields, ["config", "tracing"]);
    AtTwo(RawConfig(t).fields, "config", "tracing");
  }

  /** The tracing map for these preferred values. */
  ghost predicate TracingRight(json: JsonDecoder, m: Object, endpoint: string, protocol: string, headers: string) {
    && m.Keys <= {"otlpEndpoint", "otlpProtocol", "headers"}
    && TextField(m, "otlpEndpoint", endpoint)
    && ("grpc" <= protocol ==> TextField(m, "otlpProtocol", "grpc"))
    && ("http" <= protocol ==> TextField(m, "otlpProtocol", "http"))
    && (!("grpc" <= protocol) && !("http" <= protocol) ==> TextField(m, "otlpProtocol", protocol))
    && exists h :: HeadersShown(json, h, headers) && HeaderField(m, h)
  }

  /** After an update from any earlier object: there is no raw configuration exactly if
      neither endpoint variable has a value.  Otherwise its tracing map has the preferred
      endpoint; as protocol grpc or http for a preferred protocol that starts so, the
      protocol itself for any other, none if it is empty; and as headers the decoded text or
      the pairs of the preferred headers. */
  lemma TracingStored(json: JsonDecoder, o: Object, s: Spec, general: Values, traces: Values)
    requires Updatable(o) && GeneralValues(s.env, general) && TracesValues(s.env, traces)
    ensures var r := Updated(json, o, s);
            var endpoint := Preferred(traces.endpoint, general.endpoint);
            && "spec" in r && r["spec"].Obj?
            && ("rawConfig" !in r["spec"].fields <==> endpoint == "")
            && (endpoint != "" ==>
                  exists m :: TracingAt(r, m) && TracingRight(json, m, endpoint,
                                                              Preferred(traces.protocol, general.protocol),
                                                              Preferred(traces.headers, general.headers)))
  {
    var r := Updated(json, o, s);
    EffectiveIs(s.env, general, traces);
    RawConfigStored(json, o, s);
    if TracingOf(json, ConfigOf(s.env)).Some? {
      var t := TracingOf(json, ConfigOf(s.env)).value;
      RawConfigAt(r, t);
      TracingMapRight(json, ConfigOf(s.env));
    }
  }

  lemma RawConfigStored(json: JsonDecoder, o: Object, s: Spec)
    requires Updatable(o)
    ensures var r, tracing := Updated(json, o, s), TracingOf(json, ConfigOf(s.env));
            && "spec" in r && r["spec"].Obj?
            && ("rawConfig" in r["spec"].fields <==> tracing.Some?)
            && (tracing.Some? ==> At(r, ["spec", "rawConfig"]) == Some(RawConfig(tracing.value)))
  {
    var r := Updated(json, o, s);
    var raw, env := RawConfigFor(json, s.env), EnvArray(Plain(s.env));
    ManagedAt(Sub(o, "spec").value, raw, env, DeploymentSpec(s.envFrom), SERVICE_SPEC);
    if raw.Some? { AtTwo(r, "spec", "rawConfig"); }
  }

  lemma TracingMapRight(json: JsonDecoder, c: Config)
    requires TracingOf(json, c).Some?
    ensures TracingRight(json, TracingMap(TracingOf(json, c).value),
                         Effective(c, Endpoint), Effective(c, Protocol), Effective(c, HeaderList))
  {
    var t := TracingOf(json, c).value;
    TracingMapIs(t);
    PrefixesDiffer(Effective(c, Protocol));
    assert HeadersShown(json, t.headers, Effective(c, HeaderList)) && HeaderField(TracingMap(t), t.headers);
  }

  lemma TracingMapIs(t: Tracing)
    ensures var m := TracingMap(t);
            && m.Keys <= {"otlpEndpoint", "otlpProtocol", "headers"}
            && "otlpEndpoint" in m && m["otlpEndpoint"] == Str(t.endpoint)
            && TextField(m, "otlpProtocol", t.protocol) && HeaderField(m, t.headers)
  {
  }

  lemma EffectiveIs(envs: seq<EnvVar>, general: Values, traces: Values)
    requires GeneralValues(envs, general) && TracesValues(envs, traces)
    ensures Effective(ConfigOf(envs), Endpoint) == Preferred(traces.endpoint, general.endpoint)
    ensures Effective(ConfigOf(envs), Protocol) == Preferred(traces.protocol, general.protocol)
    ensures Effective(ConfigOf(envs), HeaderList) == Preferred(traces.headers, general.headers)
  {
    ValuesAre(envs, general, traces);
    forall f ensures Value(ConfigOf(envs), f) == LastValue(envs, f) { ConfigValues(envs, f); }
  }

  // --------------------------------------------------------------- environment

  const TRANSLATED := {
    "OTEL_EXPORTER_OTLP_ENDPOINT", "OTEL_EXPORTER_OTLP_PROTOCOL", "OTEL_EXPORTER_OTLP_HEADERS",
    "OTEL_EXPORTER_OTLP_TRACES_ENDPOINT", "OTEL_EXPORTER_OTLP_TRACES_PROTOCOL", "OTEL_EXPORTER_OTLP_TRACES_HEADERS",
    "OTEL_EXPORTER_OTLP_METRICS_ENDPOINT", "OTEL_EXPORTER_OTLP_METRICS_PROTOCOL",
    "OTEL_EXPORTER_OTLP_METRICS_HEADERS",
    "OTEL_EXPORTER_OTLP_LOGS_ENDPOINT", "OTEL_EXPORTER_OTLP_LOGS_PROTOCOL", "OTEL_EXPORTER_OTLP_LOGS_HEADERS"}

  /** A variable is translated exactly if it has one of these names. */
  lemma TranslatedByName(e: EnvVar)
    ensures Translated(e) <==> e.name in TRANSLATED
  {
    GeneralNames();
    TracesNames();
    MetricsNames();
    LogsNames();
    FindFieldName(FIELDS, e.name);
    if f :| NameOf(f) == e.name { ClassifiesByName(f, e.name); }
    if Translated(e) {
      var f := Classify(e.name).value;
      ClassifiesByName(f, e.name);
      NamedInTwelve(f);
    }
  }

  lemma NamedInTwelve(f: Field)
    ensures NameOf(f) in TRANSLATED
  {
    GeneralNames();
    TracesNames();
    MetricsNames();
    LogsNames();
  }

  /** One entry: its name; its value unless that is empty; its source if it has one. */
  predicate EntryRight(j: Json, e: EnvVar) {
    && j.Obj? && j.fields.Keys <= {"name", "value", "valueFrom"}
    && "name" in j.fields && j.fields["name"] == Str(e.name)
    && TextField(j.fields, "value", e.value)
    && (if e.from.None? then "valueFrom" !in j.fields
        else "valueFrom" in j.fields && j.fields["valueFrom"] == Str(e.from.value))
  }

  /** The rest of the managed fields after an update: the environment has, in order, an entry
      for exactly the variables with none of the twelve names; the deployment hands the
      envFrom sources to the agentgateway container; the service is of type ClusterIP. */
  lemma EnvStored(json: JsonDecoder, o: Object, s: Spec) returns (picks: seq<nat>)
    requires Updatable(o)
    ensures forall n: nat | n < |s.env| :: n in picks <==> s.env[n].name !in TRANSLATED
    ensures forall i, j | 0 <= i < j < |picks| :: picks[i] < picks[j]
    ensures var r := Updated(json, o, s);
            && At(r, ["spec", "env"]).Some? && At(r, ["spec", "env"]).value.Arr?
            && var items := At(r, ["spec", "env"]).value.items;
               && |items| == |picks|
               && forall i | 0 <= i < |picks| :: picks[i] < |s.env| && EntryRight(items[i], s.env[picks[i]])
  {
    picks := PlainIsSubsequence(s.env);
    forall n: nat | n < |s.env| ensures n in picks <==> s.env[n].name !in TRANSLATED { TranslatedByName(s.env[n]); }
    ManagedFields(json, o, s, "spec");
    forall i | 0 <= i < |picks| ensures EntryRight(EnvJson(s.env[picks[i]]), s.env[picks[i]]) {
      EntryIsRight(s.env[picks[i]]);
    }
  }

  lemma EntryIsRight(e: EnvVar)
    ensures EntryRight(EnvJson(e), e)
  {
  }

  lemma DeploymentStored(json: JsonDecoder, o: Object, s: Spec)
    requires Updatable(o)
    ensures var r := Updated(json, o, s);
            && At(r, ["spec", "deployment", "spec", "template", "spec", "containers"])
               == Some(Arr([Obj(map["name" := Str("agentgateway"), "envFrom" := Arr(s.envFrom)])]))
            && At(r, ["spec", "service", "spec", "type"]) == Some(Str("ClusterIP"))
  {
    ManagedFields(json, o, s, "spec");
    ContainersIn(Updated(json, o, s), s.envFrom);
    TypeIn(Updated(json, o, s));
  }

  lemma ContainersIn(r: Object, envFrom: seq<Json>)
    requires At(r, ["spec", "deployment", "spec"]) == Some(DeploymentSpec(envFrom))
    ensures At(r, ["spec", "deployment", "spec", "template", "spec", "containers"])
            == Some(Arr([Obj(map["name" := Str("agentgateway"), "envFrom" := Arr(envFrom)])]))
  {
    var path, rest := ["spec", "deployment", "spec"], ["template", "spec", "containers"];
    assert ["spec", "deployment", "spec", "template", "spec", "containers"] == path + rest;
    AtAppend(r, path, DeploymentSpec(envFrom).fields, rest);
    ContainersAt(envFrom);
  }

  lemma TypeIn(r: Object)
    requires At(r, ["spec", "service", "spec"]) == Some(SERVICE_SPEC)
    ensures At(r, ["spec", "service", "spec", "type"]) == Some(Str("ClusterIP"))
  {
    var path := ["spec", "service", "spec"];
    assert ["spec", "service", "spec", "type"] == path + ["type"];
    AtAppend(r, path, SERVICE_SPEC.fields, ["type"]);
  }

  lemma ContainersAt(envFrom: seq<Json>)
    ensures At(DeploymentSpec(envFrom).fields, ["template", "spec", "containers"])
            == Some(Arr([Obj(map["name" := Str("agentgateway"), "envFrom" := Arr(envFrom)])]))
  {
    AtThree(DeploymentSpec(envFrom).fields, "template", "spec", "containers");
  }
}
