/** The configuration a Guard and its GuardrailProvider render to, and the outcome
    of a Guard reconcile as a function of what it reads. */
module GuardConfig {
  import opened Wrappers
  import opened Objects

  datatype PresidioOptions = PresidioOptions(
    language: string, scoreThresholds: map<string, string>, entityActions: map<string, string>)

  datatype GuardSpec = GuardSpec(mode: seq<string>, providerRef: Ref, presidio: Option<PresidioOptions>)

  /** baseUrl is None when the provider has no presidio section. */
  datatype ProviderSpec = ProviderSpec(kind: string, baseUrl: Option<string>)

  datatype StaticConfig = StaticConfig(
    provider: string, modes: seq<string>, endpoint: string, options: PresidioOptions)

  const PROVIDER_TYPE_PRESIDIO := "presidio-api"
  const MODE_PRE_CALL := "pre_call"
  const MODE_POST_CALL := "post_call"

  datatype RenderError = UnsupportedProvider | InvalidConfig | MarshalFailed

  datatype Rendered = Config(yaml: string, hash: string) | Failed(error: RenderError)

  /** YAML encoding (which may fail) and SHA-256 stay abstract. */
  datatype Encoding = Encoding(marshal: StaticConfig -> Option<string>, sha256: string -> string)

  predicate SupportedMode(m: string) {
    m == MODE_PRE_CALL || m == MODE_POST_CALL
  }

  predicate ValidInput(g: GuardSpec, p: ProviderSpec) {
    && g.mode != []
    && (forall i | 0 <= i < |g.mode| :: SupportedMode(g.mode[i]))
    && p.baseUrl.Some? && p.baseUrl.value != ""
  }

  /** The configuration of a valid input. */
  function ConfigOf(g: GuardSpec, p: ProviderSpec): StaticConfig
    requires p.baseUrl.Some?
  {
    StaticConfig(PROVIDER_TYPE_PRESIDIO, g.mode, p.baseUrl.value,
                 if g.presidio.Some? then g.presidio.value else PresidioOptions("", map[], map[]))
  }

  function Render(e: Encoding, g: GuardSpec, p: ProviderSpec): Rendered {
    if p.kind != PROVIDER_TYPE_PRESIDIO then Failed(UnsupportedProvider)
    else if !ValidInput(g, p) then Failed(InvalidConfig)
    else
      match e.marshal(ConfigOf(g, p))
      case None => Failed(MarshalFailed)
      case Some(yaml) => Config(yaml, e.sha256(yaml))
  }

  /** Step by step, with the early returns of the source. */
  method RenderStaticConfig(e: Encoding, g: GuardSpec, p: ProviderSpec) returns (r: Rendered)
    ensures r == Render(e, g, p)
  {
    if p.kind != PROVIDER_TYPE_PRESIDIO {
      return Failed(UnsupportedProvider);
    }
    if |g.mode| == 0 {
      return Failed(InvalidConfig);
    }
    for i := 0 to |g.mode|
      invariant forall j | 0 <= j < i :: SupportedMode(g.mode[j])
    {
      if g.mode[i] != MODE_PRE_CALL && g.mode[i] != MODE_POST_CALL {
        return Failed(InvalidConfig);
      }
    }
    var modes := [];
    for i := 0 to |g.mode|
      invariant modes == g.mode[..i]
    {
      modes := modes + [g.mode[i]];
    }
    if p.baseUrl == None || p.baseUrl.value == "" {
      return Failed(InvalidConfig);
    }
    var cfg := StaticConfig(PROVIDER_TYPE_PRESIDIO, modes, p.baseUrl.value, PresidioOptions("", map[], map[]));
    if g.presidio.Some? {
      cfg := cfg.(options := g.presidio.value);
    }
    assert modes == g.mode;
    assert cfg == ConfigOf(g, p);
    var data := e.marshal(cfg);
    if data == None {
      return Failed(MarshalFailed);
    }
    return Config(data.value, e.sha256(data.value));
  }

  // --------------------------------------------------------------- outcomes

  datatype Reason =
    | AdapterNotConfigured | ProviderNotFound | UnsupportedProviderType | InvalidGuardConfig
    | ReconcileFailed

  /** What a reconcile of an existing Guard comes to before it touches the adapter. */
  datatype Plan = Deploy(yaml: string, hash: string) | Stop(reason: Reason)

  function PlanOf(e: Encoding, image: string, g: GuardSpec, p: Option<ProviderSpec>): Plan {
    if image == "" then Stop(AdapterNotConfigured)
    else
      match p
      case None => Stop(ProviderNotFound)
      case Some(provider) =>
        match Render(e, g, provider)
        case Config(yaml, hash) => Deploy(yaml, hash)
        case Failed(UnsupportedProvider) => Stop(UnsupportedProviderType)
        case Failed(InvalidConfig) => Stop(InvalidGuardConfig)
        case Failed(MarshalFailed) => Stop(ReconcileFailed)
  }

  /** Outcomes that wait for an edit instead of being retried. */
  predicate IsTerminal(r: Reason) {
    r != ReconcileFailed
  }

  /** A Guard is deployed exactly for a configured operator, an existing presidio
      provider with an endpoint, and a non-empty list of supported modes. */
  lemma DeployedIff(e: Encoding, image: string, g: GuardSpec, p: Option<ProviderSpec>)
    ensures PlanOf(e, image, g, p).Deploy? <==>
            && image != ""
            && p.Some? && p.value.kind == PROVIDER_TYPE_PRESIDIO && ValidInput(g, p.value)
            && e.marshal(ConfigOf(g, p.value)).Some?
    ensures PlanOf(e, image, g, p).Deploy? ==>
              PlanOf(e, image, g, p).hash == e.sha256(PlanOf(e, image, g, p).yaml)
  {
  }

  /** The options a Guard without a presidio section stands for. */
  function OptionsOf(g: GuardSpec): PresidioOptions {
    g.presidio.GetOr(PresidioOptions("", map[], map[]))
  }

  /** The encoding tells the two configurations apart, and the digest their two texts. */
  predicate NoCollision(e: Encoding, c: StaticConfig, d: StaticConfig)
    requires e.marshal(c).Some? && e.marshal(d).Some?
  {
    && (e.marshal(c) == e.marshal(d) ==> c == d)
    && (e.sha256(e.marshal(c).value) == e.sha256(e.marshal(d).value) ==> e.marshal(c) == e.marshal(d))
  }

  /** What a configuration is made of: modes, endpoint and presidio options. */
  predicate SameSettings(g: GuardSpec, p: ProviderSpec, h: GuardSpec, q: ProviderSpec) {
    g.mode == h.mode && p.baseUrl == q.baseUrl && OptionsOf(g) == OptionsOf(h)
  }

  /** The hash changes exactly when the modes, the endpoint or the presidio options do,
      unless the two configurations happen to collide. */
  lemma HashDistinguishes(e: Encoding, g: GuardSpec, p: ProviderSpec, h: GuardSpec, q: ProviderSpec)
    requires Render(e, g, p).Config? && Render(e, h, q).Config?
    requires NoCollision(e, ConfigOf(g, p), ConfigOf(h, q))
    ensures Render(e, g, p).hash == Render(e, h, q).hash <==> SameSettings(g, p, h, q)
  {
    assert ConfigOf(g, p) == ConfigOf(h, q) <==> SameSettings(g, p, h, q);
  }
}
