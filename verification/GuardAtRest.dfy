/** What a Guard at rest shows and has, and when it comes to rest, told from its spec, its
    provider and the operator's adapter image. */
module GuardAtRest {
  import opened Wrappers
  import opened Objects
  import opened Api
  import opened GuardConfig
  import opened GuardLoop
  import opened GuardOrdering
  import opened GuardOutcomes

  /** The GuardrailProvider the Guard refers to, in the namespace given or its own. */
  function ReferredKey(p: Params, g: GuardSpec): Key {
    Key(if g.providerRef.ns == "" then p.key.ns else g.providerRef.ns, g.providerRef.name)
  }

  /** Every mode is known, there is at least one, and the provider has an endpoint. */
  predicate WellFormed(g: GuardSpec, provider: ProviderSpec) {
    && |g.mode| > 0
    && (forall i | 0 <= i < |g.mode| :: g.mode[i] == "pre_call" || g.mode[i] == "post_call")
    && provider.baseUrl.Some? && provider.baseUrl.value != ""
  }

  /** The configuration of the adapter: the modes and the endpoint, and of the Guard's
      presidio section, or its absence, language, thresholds and actions. */
  predicate ConfigRight(c: StaticConfig, g: GuardSpec, provider: ProviderSpec) {
    && c.provider == "presidio-api" && c.modes == g.mode && provider.baseUrl == Some(c.endpoint)
    && (g.presidio.Some? ==>
          && c.options.language == g.presidio.value.language
          && c.options.scoreThresholds == g.presidio.value.scoreThresholds
          && c.options.entityActions == g.presidio.value.entityActions)
    && (g.presidio.None? ==>
          c.options.language == "" && c.options.scoreThresholds == map[] && c.options.entityActions == map[])
  }

  lemma ConfigOfIsRight(g: GuardSpec, provider: ProviderSpec)
    requires provider.baseUrl.Some?
    ensures ConfigRight(ConfigOf(g, provider), g, provider)
  {
  }

  /** A configuration is determined by what is right about it. */
  lemma OneConfig(c: StaticConfig, g: GuardSpec, provider: ProviderSpec)
    requires provider.baseUrl.Some? && ConfigRight(c, g, provider)
    ensures c == ConfigOf(g, provider)
  {
  }

  // -------------------------------------------------------------------- status

  /** The last status patch took effect or there was nothing to change. */
  predicate Shows(s: State, before: Status, r: Reply, reason: Reason) {
    s.status == Shown(IsNotReady(reason), s.generation)
    <==> r != Refused || before == Shown(IsNotReady(reason), s.generation)
  }

  /** In every run, at rest: without an adapter image the Guard shows AdapterNotConfigured;
      without its provider ProviderNotFound; with a provider of another kind
      UnsupportedProviderType; and with a mode list or an endpoint that will not do
      InvalidGuardConfig; each unless its last status patch was refused and it was not
      shown before. */
  lemma ReasonShown(p: Params, ss: seq<State>, m: nat, r: Reply)
    requires Run(p, ss) && Resting(ss[|ss| - 1]) && LastPatch(p, ss, m, r)
    ensures var s := ss[|ss| - 1];
            var g := s.guard.value;
            var key := ReferredKey(p, g);
            && (p.image == "" ==> Shows(s, ss[m].status, r, AdapterNotConfigured))
            && (p.image != "" && key !in s.providers ==> Shows(s, ss[m].status, r, ProviderNotFound))
            && (p.image != "" && key in s.providers ==>
                  var provider := s.providers[key];
                  && (provider.kind != "presidio-api" ==> Shows(s, ss[m].status, r, UnsupportedProviderType))
                  && (provider.kind == "presidio-api" && !WellFormed(g, provider) ==>
                        Shows(s, ss[m].status, r, InvalidGuardConfig)))
  {
    StatusRightIff(p, ss, m, r);
  }

  /** And otherwise it shows Ready=True. */
  lemma ReadyShown(p: Params, ss: seq<State>)
    requires Run(p, ss) && Resting(ss[|ss| - 1])
    requires var s := ss[|ss| - 1];
             var key := ReferredKey(p, s.guard.value);
             && p.image != "" && key in s.providers && s.providers[key].kind == "presidio-api"
             && WellFormed(s.guard.value, s.providers[key])
    ensures ss[|ss| - 1].status == Shown(IsReady, ss[|ss| - 1].generation)
  {
    NothingMissed(p, ss);
  }

  // ------------------------------------------------------------------- adapter

  /** The object called after the Guard, with the suffix -adapter. */
  function Named(p: Params, kind: Slot): ChildId {
    ChildId(kind, Key(p.key.ns, p.key.name + "-adapter"))
  }

  predicate Has(p: Params, s: State, kind: Slot) {
    Named(p, kind) in s.children && s.children[Named(p, kind)].owner == Mine
  }

  /** In every run, the adapter of a deployed Guard at rest: a ConfigMap with the encoded
      configuration, a Deployment with its digest and the operator's image, a Service, all
      under one name and controlled by the Guard. */
  lemma AdapterAtRest(p: Params, ss: seq<State>, c: StaticConfig)
    requires Run(p, ss) && Resting(ss[|ss| - 1])
    requires var s := ss[|ss| - 1];
             var key := ReferredKey(p, s.guard.value);
             && p.image != "" && key in s.providers && s.providers[key].kind == "presidio-api"
             && WellFormed(s.guard.value, s.providers[key]) && ConfigRight(c, s.guard.value, s.providers[key])
    ensures var s := ss[|ss| - 1];
            && p.enc.marshal(c).Some?
            && var yaml := p.enc.marshal(c).value;
            && Has(p, s, ConfigMapSlot) && s.children[Named(p, ConfigMapSlot)].content == Data(yaml)
            && Has(p, s, DeploymentSlot) && s.children[Named(p, DeploymentSlot)].content.Pod?
            && s.children[Named(p, DeploymentSlot)].content.hash == p.enc.sha256(yaml)
            && s.children[Named(p, DeploymentSlot)].content.image == p.image
            && Has(p, s, ServiceSlot) && s.children[Named(p, ServiceSlot)].content == Ports
  {
    var s := ss[|ss| - 1];
    NothingMissed(p, ss);
    OneConfig(c, s.guard.value, s.providers[ReferredKey(p, s.guard.value)]);
    assert forall kind :: Named(p, kind) == IdOf(p, kind);
  }

  // ------------------------------------------------------------------ settling

  /** Somebody else controls an object of that name. */
  predicate TakenByOther(p: Params, s: State, kind: Slot) {
    Named(p, kind) in s.children && s.children[Named(p, kind)].owner == Other
  }

  /** The inputs call for no deployment, for a reason that only an edit can change. */
  predicate WaitsForEdit(p: Params, s: State)
    requires s.guard.Some?
  {
    var key := ReferredKey(p, s.guard.value);
    || p.image == ""
    || key !in s.providers
    || s.providers[key].kind != "presidio-api"
    || !WellFormed(s.guard.value, s.providers[key])
  }

  /** The configuration can be encoded. */
  ghost predicate Encodable(p: Params, s: State)
    requires s.guard.Some? && !WaitsForEdit(p, s)
  {
    exists c :: ConfigRight(c, s.guard.value, s.providers[ReferredKey(p, s.guard.value)]) && p.enc.marshal(c).Some?
  }

  /** With calls that succeed, a queued Guard comes to rest exactly when it waits for an
      edit, or its configuration can be encoded and nobody else has an object of its
      adapter's name; so a missing or unfit provider ends the loop, and a configuration that
      cannot be encoded never does. */
  lemma RestsIff(p: Params, s: State)
    requires s.guard.Some? && Init(s)
    ensures (exists n: nat :: RestsAfter(p, s, n)) <==>
            || WaitsForEdit(p, s)
            || (Encodable(p, s) && !TakenByOther(p, s, ConfigMapSlot) && !TakenByOther(p, s, DeploymentSlot)
                && !TakenByOther(p, s, ServiceSlot))
  {
    SettlesIff(p, s);
    assert forall kind :: Named(p, kind) == IdOf(p, kind);
    if !WaitsForEdit(p, s) {
      var g, provider := s.guard.value, s.providers[ReferredKey(p, s.guard.value)];
      ConfigOfIsRight(g, provider);
      forall c | ConfigRight(c, g, provider) ensures c == ConfigOf(g, provider) { OneConfig(c, g, provider); }
      assert Encodable(p, s) <==> p.enc.marshal(ConfigOf(g, provider)).Some?;
    }
  }
}
