/** Translation of OTEL_EXPORTER_OTLP_* variables into the tracing configuration. */
module Otel {
  import opened Wrappers
  import opened Strings
  import opened Headers

  // ------------------------------------------------------------ the variables

  datatype Signal = General | Traces | Metrics | Logs

  datatype Item = Endpoint | Protocol | HeaderList

  datatype Field = Field(signal: Signal, item: Item)

  /** from is the reference of a variable that takes its value from elsewhere. */
  datatype EnvVar = EnvVar(name: string, value: string, from: Option<string>)

  function SignalPart(s: Signal): string {
    match s
    case General => "" case Traces => "TRACES_" case Metrics => "METRICS_" case Logs => "LOGS_"
  }

  function ItemPart(i: Item): string {
    match i
    case Endpoint => "ENDPOINT" case Protocol => "PROTOCOL" case HeaderList => "HEADERS"
  }

  function NameOf(f: Field): string {
    "OTEL_EXPORTER_OTLP_" + (SignalPart(f.signal) + ItemPart(f.item))
  }

  const FIELDS: seq<Field> := [
    Field(General, Endpoint), Field(General, Protocol), Field(General, HeaderList),
    Field(Traces, Endpoint), Field(Metrics, Endpoint), Field(Logs, Endpoint),
    Field(Traces, Protocol), Field(Metrics, Protocol), Field(Logs, Protocol),
    Field(Traces, HeaderList), Field(Metrics, HeaderList), Field(Logs, HeaderList)]

  /** The cases of the switch over the name, in order. */
  function FindField(fields: seq<Field>, name: string): Option<Field> {
    if fields == [] then None
    else if NameOf(fields[0]) == name then Some(fields[0])
    else FindField(fields[1..], name)
  }

  function Classify(name: string): Option<Field> {
    FindField(FIELDS, name)
  }

  /** The part of a name behind the common prefix: its first characters tell the
      twelve names apart. */
  lemma NamesDistinct(f: Field, g: Field)
    requires NameOf(f) == NameOf(g)
    ensures f == g
  {
    var p := "OTEL_EXPORTER_OTLP_";
    SuffixesEqual(p, SignalPart(f.signal) + ItemPart(f.item), SignalPart(g.signal) + ItemPart(g.item));
    var s := SignalPart(f.signal) + ItemPart(f.item);
    FirstLetter(f);
    FirstLetter(g);
    if f.signal != General {
      assert f.signal == g.signal;
      SuffixesEqual(SignalPart(f.signal), ItemPart(f.item), ItemPart(g.item));
    }
  }

  lemma FirstLetter(f: Field)
    ensures (SignalPart(f.signal) + ItemPart(f.item))[0] ==
            match f.signal
            case General => ItemPart(f.item)[0]
            case Traces => 'T' case Metrics => 'M' case Logs => 'L'
  {
  }

  lemma {:induction false} FindFieldFinds(fields: seq<Field>, f: Field)
    requires f in fields
    ensures FindField(fields, NameOf(f)) == Some(f)
  {
    if fields[0] == f {
    } else {
      if NameOf(fields[0]) == NameOf(f) { NamesDistinct(fields[0], f); }
      FindFieldFinds(fields[1..], f);
    }
  }

  /** The switch has a case for every one of the twelve variables. */
  lemma ClassifiesByName(f: Field, name: string)
    ensures Classify(name) == Some(f) <==> name == NameOf(f)
  {
    EveryField(f);
    FindFieldFinds(FIELDS, f);
    FindFieldName(FIELDS, name);
  }

  lemma {:induction false} FindFieldName(fields: seq<Field>, name: string)
    ensures FindField(fields, name).Some? ==> NameOf(FindField(fields, name).value) == name
  {
    if fields != [] { FindFieldName(fields[1..], name); }
  }

  /** The twelve names. */
  lemma GeneralNames()
    ensures NameOf(Field(General, Endpoint)) == "OTEL_EXPORTER_OTLP_ENDPOINT"
    ensures NameOf(Field(General, Protocol)) == "OTEL_EXPORTER_OTLP_PROTOCOL"
    ensures NameOf(Field(General, HeaderList)) == "OTEL_EXPORTER_OTLP_HEADERS"
  {
  }

  lemma TracesNames()
    ensures NameOf(Field(Traces, Endpoint)) == "OTEL_EXPORTER_OTLP_TRACES_ENDPOINT"
    ensures NameOf(Field(Traces, Protocol)) == "OTEL_EXPORTER_OTLP_TRACES_PROTOCOL"
    ensures NameOf(Field(Traces, HeaderList)) == "OTEL_EXPORTER_OTLP_TRACES_HEADERS"
  {
  }

  lemma MetricsNames()
    ensures NameOf(Field(Metrics, Endpoint)) == "OTEL_EXPORTER_OTLP_METRICS_ENDPOINT"
    ensures NameOf(Field(Metrics, Protocol)) == "OTEL_EXPORTER_OTLP_METRICS_PROTOCOL"
    ensures NameOf(Field(Metrics, HeaderList)) == "OTEL_EXPORTER_OTLP_METRICS_HEADERS"
  {
  }

  lemma LogsNames()
    ensures NameOf(Field(Logs, Endpoint)) == "OTEL_EXPORTER_OTLP_LOGS_ENDPOINT"
    ensures NameOf(Field(Logs, Protocol)) == "OTEL_EXPORTER_OTLP_LOGS_PROTOCOL"
    ensures NameOf(Field(Logs, HeaderList)) == "OTEL_EXPORTER_OTLP_LOGS_HEADERS"
  {
  }

  /** The otelConfig struct: an unset field is the empty string. */
  type Config = map<Field, string>

  function Value(c: Config, f: Field): string {
    if f in c then c[f] else ""
  }

  /** The value of the last variable for a field. */
  function LastValue(envs: seq<EnvVar>, f: Field): string {
    if envs == [] then ""
    else if Classify(envs[|envs| - 1].name) == Some(f) then envs[|envs| - 1].value
    else LastValue(envs[..|envs| - 1], f)
  }

  /** The value of the last variable of that name, or the empty string if there is none. */
  predicate IsLastValue(envs: seq<EnvVar>, name: string, v: string) {
    || (v == "" && forall i | 0 <= i < |envs| :: envs[i].name != name)
    || (exists i :: 0 <= i < |envs| && envs[i].name == name && envs[i].value == v
                    && forall j | i < j < |envs| :: envs[j].name != name)
  }

  lemma {:induction false} LastValueIsLast(envs: seq<EnvVar>, f: Field)
    ensures IsLastValue(envs, NameOf(f), LastValue(envs, f))
  {
    if envs != [] {
      var n := |envs| - 1;
      ClassifiesByName(f, envs[n].name);
      if envs[n].name != NameOf(f) {
        LastValueIsLast(envs[..n], f);
        if i :| 0 <= i < n && envs[..n][i].name == NameOf(f) && envs[..n][i].value == LastValue(envs, f)
                && forall j | i < j < n :: envs[..n][j].name != NameOf(f) {
          assert envs[i].name == NameOf(f) && forall j | i < j < |envs| :: envs[j].name != NameOf(f);
        } else {
          assert forall i | 0 <= i < n :: envs[..n][i].name == envs[i].name;
        }
      }
    }
  }

  /** There is only one such value. */
  lemma OneLastValue(envs: seq<EnvVar>, name: string, v: string, w: string)
    requires IsLastValue(envs, name, v) && IsLastValue(envs, name, w)
    ensures v == w
  {
    if i :| 0 <= i < |envs| && envs[i].name == name && envs[i].value == v
            && forall j | i < j < |envs| :: envs[j].name != name {
      var k :| 0 <= k < |envs| && envs[k].name == name && envs[k].value == w
               && forall j | k < j < |envs| :: envs[j].name != name;
      assert i == k;
    }
  }

  predicate Translated(e: EnvVar) {
    Classify(e.name).Some?
  }

  /** The variables that satisfy `keep`, in order. */
  function Select(envs: seq<EnvVar>, keep: EnvVar -> bool): seq<EnvVar> {
    if envs == [] then []
    else Select(envs[..|envs| - 1], keep) + if keep(envs[|envs| - 1]) then [envs[|envs| - 1]] else []
  }

  /** The variables that are not translated, in order. */
  function Plain(envs: seq<EnvVar>): seq<EnvVar> {
    Select(envs, e => !Translated(e))
  }

  method ExtractOTELEnvVars(envs: seq<EnvVar>) returns (config: Config, filtered: seq<EnvVar>)
    ensures forall f :: Value(config, f) == LastValue(envs, f)
    ensures filtered == Plain(envs)
  {
    ghost var keep := e => !Translated(e);
    config := map[];
    filtered := [];
    for i := 0 to |envs|
      invariant forall f :: Value(config, f) == LastValue(envs[..i], f)
      invariant filtered == Select(envs[..i], keep)
    {
      assert envs[..i + 1][..i] == envs[..i] && envs[..i + 1][i] == envs[i];
      var env := envs[i];
      var field := Classify(env.name);
      if field.Some? {
        config := config[field.value := env.value];
      } else {
        filtered := filtered + [env];
      }
    }
    assert envs[..|envs|] == envs;
  }

  // ------------------------------------------------------ the filtered variables

  /** `picks` selects `sub` from `envs` in order. */
  ghost predicate Subsequence(sub: seq<EnvVar>, envs: seq<EnvVar>, picks: seq<nat>) {
    && |picks| == |sub|
    && (forall i | 0 <= i < |picks| :: picks[i] < |envs| && envs[picks[i]] == sub[i])
    && (forall i, j | 0 <= i < j < |picks| :: picks[i] < picks[j])
  }

  /** Exactly the positions that satisfy `keep`. */
  ghost predicate PicksAll(envs: seq<EnvVar>, keep: EnvVar -> bool, picks: seq<nat>) {
    forall n: nat | n < |envs| :: n in picks <==> keep(envs[n])
  }

  lemma {:induction false} SelectIsSubsequence(envs: seq<EnvVar>, keep: EnvVar -> bool) returns (picks: seq<nat>)
    ensures Subsequence(Select(envs, keep), envs, picks) && PicksAll(envs, keep, picks)
  {
    picks := [];
    if envs != [] {
      var n := |envs| - 1;
      picks := SelectIsSubsequence(envs[..n], keep);
      assert envs == envs[..n] + [envs[n]];
      ExtendSubsequence(Select(envs[..n], keep), envs[..n], picks, envs[n], keep(envs[n]));
      ExtendPicks(envs[..n], picks, envs[n], keep);
      picks := if keep(envs[n]) then picks + [n] else picks;
    }
  }

  lemma ExtendSubsequence(sub: seq<EnvVar>, envs: seq<EnvVar>, picks: seq<nat>, x: EnvVar, kept: bool)
    requires Subsequence(sub, envs, picks)
    ensures Subsequence(if kept then sub + [x] else sub, envs + [x], if kept then picks + [|envs|] else picks)
  {
    assert forall i | 0 <= i < |picks| :: picks[i] < |envs| && (envs + [x])[picks[i]] == envs[picks[i]];
  }

  lemma ExtendPicks(envs: seq<EnvVar>, picks: seq<nat>, x: EnvVar, keep: EnvVar -> bool)
    requires PicksAll(envs, keep, picks)
    requires forall i | 0 <= i < |picks| :: picks[i] < |envs|
    ensures PicksAll(envs + [x], keep, if keep(x) then picks + [|envs|] else picks)
  {
    var all := envs + [x];
    var more := if keep(x) then picks + [|envs|] else picks;
    assert |envs| !in picks;
    forall m: nat | m < |all| ensures m in more <==> keep(all[m]) {
      if m < |envs| { assert all[m] == envs[m]; }
    }
  }

  /** The filtered list is the order-preserving subsequence of the variables that are
      not translated: nothing else, nothing lost, nothing moved. */
  lemma PlainIsSubsequence(envs: seq<EnvVar>) returns (picks: seq<nat>)
    ensures Subsequence(Plain(envs), envs, picks)
    ensures forall n: nat | n < |envs| :: n in picks <==> !Translated(envs[n])
  {
    picks := SelectIsSubsequence(envs, e => !Translated(e));
  }

  lemma {:induction false} SelectedSatisfy(envs: seq<EnvVar>, keep: EnvVar -> bool)
    ensures forall i | 0 <= i < |Select(envs, keep)| :: keep(Select(envs, keep)[i])
  {
    if envs != [] { SelectedSatisfy(envs[..|envs| - 1], keep); }
  }

  lemma {:induction false} SelectEverything(envs: seq<EnvVar>, keep: EnvVar -> bool)
    requires forall i | 0 <= i < |envs| :: keep(envs[i])
    ensures Select(envs, keep) == envs
  {
    if envs != [] {
      SelectEverything(envs[..|envs| - 1], keep);
      assert envs == envs[..|envs| - 1] + [envs[|envs| - 1]];
    }
  }

  lemma {:induction false} NothingTranslated(envs: seq<EnvVar>, f: Field)
    requires forall i | 0 <= i < |envs| :: !Translated(envs[i])
    ensures LastValue(envs, f) == ""
  {
    if envs != [] {
      NothingTranslated(envs[..|envs| - 1], f);
    }
  }

  /** Extraction is idempotent: the filtered list holds nothing to translate. */
  lemma ReextractionIsIdentity(envs: seq<EnvVar>)
    ensures Plain(Plain(envs)) == Plain(envs)
    ensures forall f :: LastValue(Plain(envs), f) == ""
  {
    var keep := e => !Translated(e);
    SelectedSatisfy(envs, keep);
    SelectEverything(Plain(envs), keep);
    forall f ensures LastValue(Plain(envs), f) == "" {
      NothingTranslated(Plain(envs), f);
    }
  }

  // ------------------------------------------------------------------ tracing

  datatype Tracing = Tracing(endpoint: string, protocol: string, headers: map<string, string>)

  /** Signal-specific value first, general value otherwise. */
  function Effective(c: Config, i: Item): string {
    if Value(c, Field(Traces, i)) != "" then Value(c, Field(Traces, i)) else Value(c, Field(General, i))
  }

  function Normalize(protocol: string): string {
    if "grpc" <= protocol then "grpc" else if "http" <= protocol then "http" else protocol
  }

  predicate AnySet(c: Config) {
    exists i :: 0 <= i < |FIELDS| && Value(c, FIELDS[i]) != ""
  }

  function TracingOf(json: JsonDecoder, c: Config): Option<Tracing> {
    if Effective(c, Endpoint) == "" then None
    else
      Some(Tracing(Effective(c, Endpoint), Normalize(Effective(c, Protocol)),
                   if Effective(c, HeaderList) == "" then map[] else HeadersOf(json, Effective(c, HeaderList))))
  }

  /** The traces value, or the general one if that is empty. */
  predicate Prefers(result: string, traces: string, general: string) {
    (traces != "" ==> result == traces) && (traces == "" ==> result == general)
  }

  /** The two known families of protocols by prefix; anything else is kept. */
  predicate ProtocolShown(result: string, protocol: string) {
    && ("grpc" <= protocol ==> result == "grpc")
    && ("http" <= protocol ==> result == "http")
    && (!("grpc" <= protocol) && !("http" <= protocol) ==> result == protocol)
  }

  /** The decoded text if it is JSON, otherwise its pairs; none for the empty text. */
  predicate HeadersShown(json: JsonDecoder, result: map<string, string>, text: string) {
    && (text == "" ==> result == map[])
    && (text != "" && json(text).Some? ==> result == json(text).value)
    && (text != "" && json(text).None? ==> result == ParsePairs(Split(text, ',')))
  }

  /** What a tracing configuration says of the three general and the three traces values. */
  ghost predicate SaysOf(json: JsonDecoder, t: Tracing, general: Item -> string, traces: Item -> string) {
    && Prefers(t.endpoint, traces(Endpoint), general(Endpoint))
    && (exists protocol ::
          Prefers(protocol, traces(Protocol), general(Protocol)) && ProtocolShown(t.protocol, protocol))
    && (exists text ::
          Prefers(text, traces(HeaderList), general(HeaderList)) && HeadersShown(json, t.headers, text))
  }

  method BuildTelemetryConfig(json: JsonDecoder, c: Config) returns (tracing: Option<Tracing>)
    ensures tracing == TracingOf(json, c)
    ensures tracing.None? <==> Value(c, Field(Traces, Endpoint)) == "" && Value(c, Field(General, Endpoint)) == ""
    ensures tracing.Some? ==>
              SaysOf(json, tracing.value, i => Value(c, Field(General, i)), i => Value(c, Field(Traces, i)))
  {
    TracingSays(json, c);
    if !AnySet(c) {
      assert Value(c, FIELDS[0]) == "" && Value(c, FIELDS[3]) == "";
      return None;
    }
    var endpoint := Value(c, Field(Traces, Endpoint));
    if endpoint == "" {
      endpoint := Value(c, Field(General, Endpoint));
    }
    if endpoint == "" {
      return None;
    }
    var t := Tracing(endpoint, "", map[]);
    var protocol := Value(c, Field(Traces, Protocol));
    if protocol == "" {
      protocol := Value(c, Field(General, Protocol));
    }
    if protocol != "" {
      if "grpc" <= protocol {
        t := t.(protocol := "grpc");
      } else if "http" <= protocol {
        t := t.(protocol := "http");
      } else {
        t := t.(protocol := protocol);
      }
    }
    var headers := Value(c, Field(Traces, HeaderList));
    if headers == "" {
      headers := Value(c, Field(General, HeaderList));
    }
    if headers != "" {
      var parsed := ParseHeaders(json, headers);
      t := t.(headers := parsed);
    }
    return Some(t);
  }

  lemma TracingSays(json: JsonDecoder, c: Config)
    ensures TracingOf(json, c).Some? ==>
              SaysOf(json, TracingOf(json, c).value, i => Value(c, Field(General, i)), i => Value(c, Field(Traces, i)))
  {
    assert Prefers(Effective(c, Protocol), Value(c, Field(Traces, Protocol)), Value(c, Field(General, Protocol)));
    assert Prefers(Effective(c, HeaderList), Value(c, Field(Traces, HeaderList)), Value(c, Field(General, HeaderList)));
    PrefixesDiffer(Effective(c, Protocol));
    if TracingOf(json, c).Some? {
      assert ProtocolShown(TracingOf(json, c).value.protocol, Effective(c, Protocol));
      assert HeadersShown(json, TracingOf(json, c).value.headers, Effective(c, HeaderList));
    }
  }

  lemma PrefixesDiffer(s: string)
    ensures !("grpc" <= s && "http" <= s)
  {
    assert "grpc"[0] != "http"[0];
  }

  function ConfigOf(envs: seq<EnvVar>): Config {
    map f | f in FIELDS :: LastValue(envs, f)
  }

  lemma EveryField(f: Field)
    ensures f in FIELDS
  {
    var i := match f
      case Field(General, Endpoint) => 0 case Field(General, Protocol) => 1 case Field(General, HeaderList) => 2
      case Field(Traces, Endpoint) => 3 case Field(Metrics, Endpoint) => 4 case Field(Logs, Endpoint) => 5
      case Field(Traces, Protocol) => 6 case Field(Metrics, Protocol) => 7 case Field(Logs, Protocol) => 8
      case Field(Traces, HeaderList) => 9 case Field(Metrics, HeaderList) => 10 case Field(Logs, HeaderList) => 11;
    assert FIELDS[i] == f;
  }

  /** Two variable lists that agree on the last general and the last traces values
      yield the same tracing configuration, whatever they say about metrics and logs
      and in whatever order; there is none exactly when the effective endpoint is
      empty. */
  lemma TracingDependsOnLastValues(json: JsonDecoder, a: seq<EnvVar>, b: seq<EnvVar>)
    requires forall i :: LastValue(a, Field(General, i)) == LastValue(b, Field(General, i))
    requires forall i :: LastValue(a, Field(Traces, i)) == LastValue(b, Field(Traces, i))
    ensures TracingOf(json, ConfigOf(a)) == TracingOf(json, ConfigOf(b))
    ensures TracingOf(json, ConfigOf(a)) == None
            <==> LastValue(a, Field(Traces, Endpoint)) == "" && LastValue(a, Field(General, Endpoint)) == ""
  {
    forall f ensures Value(ConfigOf(a), f) == LastValue(a, f) && Value(ConfigOf(b), f) == LastValue(b, f) {
      EveryField(f);
    }
  }

  /** Appending a metrics or logs variable, or one that is not translated, anywhere
      does not change the configuration. */
  lemma {:induction false} IrrelevantVariable(json: JsonDecoder, before: seq<EnvVar>, x: EnvVar, after: seq<EnvVar>)
    requires Classify(x.name).Some? ==>
               Classify(x.name).value.signal == Metrics || Classify(x.name).value.signal == Logs
    ensures TracingOf(json, ConfigOf(before + [x] + after)) == TracingOf(json, ConfigOf(before + after))
  {
    forall i
      ensures LastValue(before + [x] + after, Field(General, i)) == LastValue(before + after, Field(General, i))
      ensures LastValue(before + [x] + after, Field(Traces, i)) == LastValue(before + after, Field(Traces, i))
    {
      LastValueSkips(before, x, after, Field(General, i));
      LastValueSkips(before, x, after, Field(Traces, i));
    }
    TracingDependsOnLastValues(json, before + [x] + after, before + after);
  }

  lemma {:induction false} LastValueSkips(before: seq<EnvVar>, x: EnvVar, after: seq<EnvVar>, f: Field)
    requires Classify(x.name) != Some(f)
    ensures LastValue(before + [x] + after, f) == LastValue(before + after, f)
    decreases |after|
  {
    var s := before + [x] + after;
    var t := before + after;
    if after == [] {
      assert s[|s| - 1] == x && s[..|s| - 1] == before && t == before;
    } else {
      var n := |after| - 1;
      assert s[|s| - 1] == after[n] && s[..|s| - 1] == before + [x] + after[..n];
      assert t[|t| - 1] == after[n] && t[..|t| - 1] == before + after[..n];
      LastValueSkips(before, x, after[..n], f);
    }
  }

  lemma LastValueSnoc(envs: seq<EnvVar>, x: EnvVar, f: Field)
    ensures LastValue(envs + [x], f) == if Classify(x.name) == Some(f) then x.value else LastValue(envs, f)
  {
    assert (envs + [x])[..|envs|] == envs;
  }

  lemma ConfigValues(envs: seq<EnvVar>, f: Field)
    ensures Value(ConfigOf(envs), f) == LastValue(envs, f)
  {
    EveryField(f);
  }

  /** A traces endpoint set last wins over everything before it; a general endpoint
      set last counts only if there is no traces endpoint. */
  lemma LastEndpointWins(json: JsonDecoder, envs: seq<EnvVar>, s: Signal, url: string, from: Option<string>)
    requires url != "" && (s == Traces || s == General)
    ensures var x := EnvVar(NameOf(Field(s, Endpoint)), url, from);
            var t := TracingOf(json, ConfigOf(envs + [x]));
            && t.Some?
            && t.value.endpoint ==
               if s == General && LastValue(envs, Field(Traces, Endpoint)) != "" then
                 LastValue(envs, Field(Traces, Endpoint))
               else url
  {
    var x := EnvVar(NameOf(Field(s, Endpoint)), url, from);
    forall f ensures Value(ConfigOf(envs + [x]), f) == if f == Field(s, Endpoint) then url else LastValue(envs, f) {
      ConfigValues(envs + [x], f);
      LastValueSnoc(envs, x, f);
      ClassifiesByName(Field(s, Endpoint), x.name);
    }
  }
}
