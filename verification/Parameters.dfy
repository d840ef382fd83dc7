/** The AgentgatewayParameters object: an in-place update of nested fields that must
    not depend on what a previous spec left behind. */
module Parameters {
  import opened Wrappers
  import opened Headers
  import opened Otel

  datatype Json = Str(s: string) | Arr(items: seq<Json>) | Obj(fields: map<string, Json>) | Other

  type Object = map<string, Json>

  // ----------------------------------------------------------- nested fields

  /** unstructured.SetNestedField: missing maps on the way are created; a value on the
      way that is no map is an error, and then nothing is changed. */
  function SetNested(o: Object, path: seq<string>, v: Json): Option<Object>
    requires path != []
    decreases |path|
  {
    if |path| == 1 then Some(o[path[0] := v])
    else
      var inner := if path[0] !in o then Some(map[]) else
                   match o[path[0]] case Obj(m) => Some(m) case _ => None;
      match inner
      case None => None
      case Some(m) =>
        match SetNested(m, path[1..], v)
        case None => None
        case Some(m') => Some(o[path[0] := Obj(m')])
  }

  /** unstructured.RemoveNestedField for a path of two. */
  function RemoveNested(o: Object, outer: string, field: string): Object {
    if outer in o && o[outer].Obj? then o[outer := Obj(o[outer].fields - {field})] else o
  }

  // ---------------------------------------------------------------- the spec

  /** envFrom sources are taken over as they are. */
  datatype Spec = Spec(env: seq<EnvVar>, envFrom: seq<Json>)

  function EnvJson(e: EnvVar): Json {
    var named := map["name" := Str(e.name)];
    var valued := if e.value == "" then named else named["value" := Str(e.value)];
    Obj(if e.from.None? then valued else valued["valueFrom" := Str(e.from.value)])
  }

  function EnvArray(envs: seq<EnvVar>): Json {
    Arr(seq(|envs|, i requires 0 <= i < |envs| => EnvJson(envs[i])))
  }

  function HeadersJson(h: map<string, string>): map<string, Json> {
    map k | k in h :: Str(h[k])
  }

  /** The raw configuration; empty protocol and headers are omitted. */
  function RawConfig(t: Tracing): Json {
    var e := map["otlpEndpoint" := Str(t.endpoint)];
    var p := if t.protocol == "" then e else e["otlpProtocol" := Str(t.protocol)];
    var h := if t.headers == map[] then p else p["headers" := Obj(HeadersJson(t.headers))];
    Obj(map["config" := Obj(map["tracing" := Obj(h)])])
  }

  function DeploymentSpec(envFrom: seq<Json>): Json {
    Obj(map["template" := Obj(map["spec" := Obj(map["containers" := Arr([
      Obj(map["name" := Str("agentgateway"), "envFrom" := Arr(envFrom)])])])])])
  }

  const SERVICE_SPEC: Json := Obj(map["type" := Str("ClusterIP")])

  // --------------------------------------------------------- what it must be

  /** The map under a key: empty if there is none, None if the value is no map. */
  function Sub(o: Object, k: string): Option<Object> {
    if k !in o then Some(map[]) else match o[k] case Obj(m) => Some(m) case _ => None
  }

  /** The update succeeds: nothing but maps where the managed fields are nested. */
  predicate Updatable(o: Object) {
    && Sub(o, "spec").Some?
    && Sub(Sub(o, "spec").value, "deployment").Some?
    && Sub(Sub(o, "spec").value, "service").Some?
  }

  function WithRaw(spec: Object, raw: Option<Json>): Object {
    match raw case None => spec - {"rawConfig"} case Some(r) => spec["rawConfig" := r]
  }

  lemma RemoveFromNothing()
    ensures WithRaw(map[], None) == map[]
  {
  }

  /** The spec map with its four managed fields; `raw` None removes rawConfig. */
  function WithManaged(spec: Object, raw: Option<Json>, env: Json, deployment: Json, service: Json): Object
    requires Sub(spec, "deployment").Some? && Sub(spec, "service").Some?
  {
    var m1 := WithRaw(spec, raw)["env" := env];
    var m2 := m1["deployment" := Obj(Sub(spec, "deployment").value["spec" := deployment])];
    m2["service" := Obj(Sub(spec, "service").value["spec" := service])]
  }

  /** The object with the managed fields set, everything else as it was. */
  function Managed(o: Object, raw: Option<Json>, env: Json, deployment: Json, service: Json): Object
    requires Updatable(o)
  {
    o["spec" := Obj(WithManaged(Sub(o, "spec").value, raw, env, deployment, service))]
  }

  function RawConfigFor(json: JsonDecoder, envs: seq<EnvVar>): Option<Json> {
    match TracingOf(json, ConfigOf(envs))
    case None => None
    case Some(t) => Some(RawConfig(t))
  }

  function Updated(json: JsonDecoder, o: Object, s: Spec): Object
    requires Updatable(o)
  {
    Managed(o, RawConfigFor(json, s.env), EnvArray(Plain(s.env)), DeploymentSpec(s.envFrom), SERVICE_SPEC)
  }

  // --------------------------------------------------------- the in-place form

  lemma SetTwo(o: Object, a: string, b: string, v: Json)
    ensures SetNested(o, [a, b], v) ==
            match Sub(o, a)
            case None => None
            case Some(m) => Some(o[a := Obj(m[b := v])])
  {
    assert [a, b][1..] == [b];
  }

  lemma SetThree(o: Object, a: string, b: string, c: string, v: Json)
    ensures SetNested(o, [a, b, c], v) ==
            match Sub(o, a)
            case None => None
            case Some(m) =>
              match Sub(m, b)
              case None => None
              case Some(n) => Some(o[a := Obj(m[b := Obj(n[c := v])])])
  {
    assert [a, b, c][1..] == [b, c];
    if Sub(o, a).Some? { SetTwo(Sub(o, a).value, b, c, v); }
  }

  predicate SameOutsideSpec(a: Object, b: Object) {
    a["spec" := Other] == b["spec" := Other]
  }

  lemma ReplaceSpec(a: Object, b: Object, x: Json)
    requires SameOutsideSpec(a, b)
    ensures a["spec" := x] == b["spec" := x]
  {
    assert a["spec" := x] == a["spec" := Other]["spec" := x];
    assert b["spec" := x] == b["spec" := Other]["spec" := x];
  }

  lemma SetInSpec(o: Object, m: Object, field: string, v: Json)
    ensures SetNested(o["spec" := Obj(m)], ["spec", field, "spec"], v) ==
            match Sub(m, field)
            case None => None
            case Some(n) => Some(o["spec" := Obj(m[field := Obj(n["spec" := v])])])
  {
    var p := o["spec" := Obj(m)];
    SetThree(p, "spec", field, "spec", v);
    if Sub(m, field).Some? {
      var x := Obj(m[field := Obj(Sub(m, field).value["spec" := v])]);
      assert p["spec" := x] == o["spec" := x];
    }
  }

  lemma OthersKept(spec: Object, raw: Option<Json>, env: Json)
    ensures var m := WithRaw(spec, raw)["env" := env];
            Sub(m, "deployment") == Sub(spec, "deployment") && Sub(m, "service") == Sub(spec, "service")
  {
  }

  class Unstructured {
    var root: Object

    constructor (root: Object)
      ensures this.root == root
    {
      this.root := root;
    }

    method Set(path: seq<string>, v: Json) returns (ok: bool)
      requires path != []
      modifies this
      ensures ok == SetNested(old(root), path, v).Some?
      ensures root == if ok then SetNested(old(root), path, v).value else old(root)
    {
      var r := SetNested(root, path, v);
      if r.Some? {
        root := r.value;
      }
      return r.Some?;
    }

    /** The raw configuration, set or removed. */
    method SetRawConfig(raw: Option<Json>) returns (ok: bool)
      modifies this
      ensures ok <==> raw.None? || Sub(old(root), "spec").Some?
      ensures SameOutsideSpec(root, old(root))
      ensures Sub(old(root), "spec").None? ==> root == old(root)
      ensures Sub(old(root), "spec").Some? ==> Sub(root, "spec") == Some(WithRaw(Sub(old(root), "spec").value, raw))
    {
      ok := true;
      if raw.Some? {
        SetTwo(root, "spec", "rawConfig", raw.value);
        ok := Set(["spec", "rawConfig"], raw.value);
      } else {
        if "spec" !in root { RemoveFromNothing(); }
        root := RemoveNested(root, "spec", "rawConfig");
      }
    }

    method SetRawConfigAndEnv(raw: Option<Json>, env: Json) returns (ok: bool)
      modifies this
      ensures ok <==> Sub(old(root), "spec").Some?
      ensures ok ==> root == old(root)["spec" := Obj(WithRaw(Sub(old(root), "spec").value, raw)["env" := env])]
    {
      ghost var o := root;
      ok := SetRawConfig(raw);
      ghost var before := root;
      if !ok {
        return;
      }
      SetTwo(root, "spec", "env", env);
      ok := Set(["spec", "env"], env);
      if ok {
        ReplaceSpec(before, o, Obj(WithRaw(Sub(o, "spec").value, raw)["env" := env]));
      }
    }

    /** Raw configuration, then env, deployment and service, stopping at the first error. */
    method SetManaged(raw: Option<Json>, env: Json, deployment: Json, service: Json) returns (ok: bool)
      modifies this
      ensures ok <==> Updatable(old(root))
      ensures ok ==> root == Managed(old(root), raw, env, deployment, service)
    {
      ghost var o := root;
      ok := SetRawConfigAndEnv(raw, env);
      if !ok {
        return;
      }
      ghost var spec := Sub(o, "spec").value;
      ghost var m1 := WithRaw(spec, raw)["env" := env];
      OthersKept(spec, raw, env);
      SetInSpec(o, m1, "deployment", deployment);
      ok := Set(["spec", "deployment", "spec"], deployment);
      if !ok {
        return;
      }
      ghost var m2 := m1["deployment" := Obj(Sub(spec, "deployment").value["spec" := deployment])];
      assert Sub(m2, "service") == Sub(spec, "service");
      SetInSpec(o, m2, "service", service);
      ok := Set(["spec", "service", "spec"], service);
    }

    /** setAgentgatewayParametersSpec. */
    method SetAgentgatewayParametersSpec(json: JsonDecoder, s: Spec) returns (ok: bool)
      modifies this
      ensures ok <==> Updatable(old(root))
      ensures ok ==> root == Updated(json, old(root), s)
    {
      var config, filtered := ExtractOTELEnvVars(s.env);
      SameTracing(json, config, s.env);
      var tracing := BuildTelemetryConfig(json, config);
      var raw := if tracing.Some? then Some(RawConfig(tracing.value)) else None;
      ok := SetManaged(raw, EnvArray(filtered), DeploymentSpec(s.envFrom), SERVICE_SPEC);
    }
  }

  /** Only the values of a configuration matter. */
  lemma SameTracing(json: JsonDecoder, c: Config, envs: seq<EnvVar>)
    requires forall f :: Value(c, f) == LastValue(envs, f)
    ensures TracingOf(json, c) == TracingOf(json, ConfigOf(envs))
  {
    forall f ensures Value(ConfigOf(envs), f) == Value(c, f) { EveryField(f); }
  }

  // ------------------------------------------------------------------ results

  /** The managed fields. */
  function RawConfigOf(o: Object): Option<Json>
    requires Updatable(o)
  {
    var spec := Sub(o, "spec").value;
    if "rawConfig" in spec then Some(spec["rawConfig"]) else None
  }

  /** Where the four managed fields are, and that nothing else is touched. */
  lemma ManagedAt(spec: Object, raw: Option<Json>, env: Json, d: Json, v: Json)
    requires Sub(spec, "deployment").Some? && Sub(spec, "service").Some?
    ensures var m := WithManaged(spec, raw, env, d, v);
            && ("rawConfig" in m <==> raw.Some?) && (raw.Some? ==> m["rawConfig"] == raw.value)
            && "env" in m && m["env"] == env
            && "deployment" in m && m["deployment"] == Obj(Sub(spec, "deployment").value["spec" := d])
            && "service" in m && m["service"] == Obj(Sub(spec, "service").value["spec" := v])
            && m - MANAGED == spec - MANAGED
  {
  }

  const MANAGED := {"rawConfig", "env", "deployment", "service"}

  /** An object is determined by its managed fields and the rest. */
  lemma SameManaged(a: Object, b: Object)
    requires a - MANAGED == b - MANAGED
    requires forall k | k in MANAGED :: (k in a <==> k in b) && (k in a ==> a[k] == b[k])
    ensures a == b
  {
    forall k ensures (k in a <==> k in b) && (k in a ==> a[k] == b[k]) {
      if k !in MANAGED {
        assert (k in a <==> k in a - MANAGED) && (k in b <==> k in b - MANAGED);
        if k in a { assert a[k] == (a - MANAGED)[k]; }
      }
    }
  }

  lemma OverwriteSpec(m: Object, a: Json, b: Json)
    ensures m["spec" := a]["spec" := b] == m["spec" := b]
  {
  }

  lemma ManagedTwice(spec: Object, r1: Option<Json>, e1: Json, d1: Json, s1: Json,
                     r2: Option<Json>, e2: Json, d2: Json, s2: Json)
    requires Sub(spec, "deployment").Some? && Sub(spec, "service").Some?
    ensures var once := WithManaged(spec, r1, e1, d1, s1);
            && Sub(once, "deployment").Some? && Sub(once, "service").Some?
            && WithManaged(once, r2, e2, d2, s2) == WithManaged(spec, r2, e2, d2, s2)
  {
    var once := WithManaged(spec, r1, e1, d1, s1);
    ManagedAt(spec, r1, e1, d1, s1);
    ManagedAt(once, r2, e2, d2, s2);
    ManagedAt(spec, r2, e2, d2, s2);
    OverwriteSpec(Sub(spec, "deployment").value, d1, d2);
    OverwriteSpec(Sub(spec, "service").value, s1, s2);
    SameManaged(WithManaged(once, r2, e2, d2, s2), WithManaged(spec, r2, e2, d2, s2));
  }

  /** History independence: applying A and then B gives the same object as applying B
      alone; in particular no telemetry of A survives a B without telemetry. */
  lemma LastSpecWins(json: JsonDecoder, o: Object, a: Spec, b: Spec)
    requires Updatable(o)
    ensures Updatable(Updated(json, o, a))
    ensures Updated(json, Updated(json, o, a), b) == Updated(json, o, b)
  {
    ManagedAgain(o, RawConfigFor(json, a.env), EnvArray(Plain(a.env)), DeploymentSpec(a.envFrom), SERVICE_SPEC,
                 RawConfigFor(json, b.env), EnvArray(Plain(b.env)), DeploymentSpec(b.envFrom), SERVICE_SPEC);
  }

  lemma ManagedAgain(o: Object, r1: Option<Json>, e1: Json, d1: Json, s1: Json,
                     r2: Option<Json>, e2: Json, d2: Json, s2: Json)
    requires Updatable(o)
    ensures Updatable(Managed(o, r1, e1, d1, s1))
    ensures Managed(Managed(o, r1, e1, d1, s1), r2, e2, d2, s2) == Managed(o, r2, e2, d2, s2)
  {
    ManagedTwice(Sub(o, "spec").value, r1, e1, d1, s1, r2, e2, d2, s2);
  }

  /** The value at a path of nested maps. */
  function At(o: Object, path: seq<string>): Option<Json>
    requires path != []
    decreases |path|
  {
    if path[0] !in o then None
    else if |path| == 1 then Some(o[path[0]])
    else match o[path[0]] case Obj(m) => At(m, path[1..]) case _ => None
  }

  lemma AtTwo(o: Object, a: string, b: string)
    requires a in o && o[a].Obj? && b in o[a].fields
    ensures At(o, [a, b]) == Some(o[a].fields[b])
  {
    assert [a, b][1..] == [b];
  }

  lemma AtThree(o: Object, a: string, b: string, c: string)
    requires a in o && o[a].Obj? && b in o[a].fields && o[a].fields[b].Obj? && c in o[a].fields[b].fields
    ensures At(o, [a, b, c]) == Some(o[a].fields[b].fields[c])
  {
    assert [a, b, c][1..] == [b, c];
    AtTwo(o[a].fields, b, c);
  }

  lemma ManagedReads(o: Object, raw: Option<Json>, env: Json, deployment: Json, service: Json, k: string)
    requires Updatable(o)
    ensures var r := Managed(o, raw, env, deployment, service);
            && Updatable(r) && RawConfigOf(r) == raw
            && At(r, ["spec", "env"]) == Some(env)
            && At(r, ["spec", "deployment", "spec"]) == Some(deployment)
            && At(r, ["spec", "service", "spec"]) == Some(service)
            && (k != "spec" ==> (k in r <==> k in o) && (k in o ==> r[k] == o[k]))
            && (k != "rawConfig" && k != "env" && k != "deployment" && k != "service" ==>
                  var before, after := Sub(o, "spec").value, Sub(r, "spec").value;
                  (k in after <==> k in before) && (k in before ==> after[k] == before[k]))
  {
    var r := Managed(o, raw, env, deployment, service);
    var after := Sub(r, "spec").value;
    var spec := Sub(o, "spec").value;
    ManagedAt(spec, raw, env, deployment, service);
    AtTwo(r, "spec", "env");
    AtThree(r, "spec", "deployment", "spec");
    AtThree(r, "spec", "service", "spec");
    assert "rawConfig" in after <==> raw.Some?;
    if k !in MANAGED {
      assert (after - MANAGED).Keys == (spec - MANAGED).Keys;
      assert (k in after <==> k in after - MANAGED) && (k in spec <==> k in spec - MANAGED);
      if k in spec { assert after[k] == (after - MANAGED)[k] == spec[k]; }
    }
  }

  /** Raw configuration is there exactly when the spec has an effective endpoint, the
      other managed fields are those of the spec, and everything else keeps its value. */
  lemma ManagedFields(json: JsonDecoder, o: Object, s: Spec, k: string)
    requires Updatable(o)
    ensures var r := Updated(json, o, s);
            && Updatable(r)
            && (RawConfigOf(r) == None <==>
                  LastValue(s.env, Field(Traces, Endpoint)) == "" && LastValue(s.env, Field(General, Endpoint)) == "")
            && At(r, ["spec", "env"]) == Some(EnvArray(Plain(s.env)))
            && At(r, ["spec", "deployment", "spec"]) == Some(DeploymentSpec(s.envFrom))
            && At(r, ["spec", "service", "spec"]) == Some(SERVICE_SPEC)
            && (k != "spec" ==> (k in r <==> k in o) && (k in o ==> r[k] == o[k]))
            && (k != "rawConfig" && k != "env" && k != "deployment" && k != "service" ==>
                  var before, after := Sub(o, "spec").value, Sub(r, "spec").value;
                  (k in after <==> k in before) && (k in before ==> after[k] == before[k]))
  {
    TracingDependsOnLastValues(json, s.env, s.env);
    ManagedReads(o, RawConfigFor(json, s.env), EnvArray(Plain(s.env)), DeploymentSpec(s.envFrom), SERVICE_SPEC, k);
  }
}
