/** The ToolGateway controller's watches on Guards and GuardrailProviders. */
module GatewayWatch {
  import opened Wrappers
  import opened Objects
  import opened ClassOwnership
  import opened GuardConfig
  import GuardWatch
  import opened Watch

  type GuardObj = Obj<GuardSpec>

  // --------------------------------------------------------- guard -> gateways

  predicate Names(refs: seq<Ref>, home: string, guard: Key) {
    exists i :: 0 <= i < |refs| && Resolve(refs[i], home) == guard
  }

  predicate RefersTo(tg: GatewayObj, guard: Key) {
    Names(tg.spec.guardrails, tg.key.ns, guard)
  }

  function GatewaysForGuard(gateways: seq<GatewayObj>, guard: Key): seq<Key> {
    KeysWhere(gateways, tg => RefersTo(tg, guard))
  }

  /** The mapping lists exactly the gateways that refer to the Guard. */
  lemma GuardMappingInvertsReference(gateways: seq<GatewayObj>, guard: Key, k: Key)
    ensures k in GatewaysForGuard(gateways, guard) <==>
            exists tg, i :: tg in gateways && tg.key == k && 0 <= i < |tg.spec.guardrails|
                            && PointsTo(tg.spec.guardrails[i], k.ns, guard)
  {
    KeysWhereMembers(gateways, tg => RefersTo(tg, guard), k);
    if tg, i :| tg in gateways && tg.key == k && 0 <= i < |tg.spec.guardrails|
                && PointsTo(tg.spec.guardrails[i], k.ns, guard) {
      assert Resolve(tg.spec.guardrails[i], k.ns) == guard;
      assert RefersTo(tg, guard);
    }
  }

  /** Each referring gateway once, in list order, however often it refers. */
  method FindToolGatewayForGuard(gateways: seq<GatewayObj>, guard: Key) returns (requests: seq<Key>)
    ensures requests == GatewaysForGuard(gateways, guard)
  {
    ghost var p := tg => RefersTo(tg, guard);
    requests := [];
    for i := 0 to |gateways|
      invariant requests == KeysWhere(gateways[..i], p)
    {
      var tg := gateways[i];
      assert gateways[..i + 1] == gateways[..i] + [tg];
      KeysWhereSnoc(gateways[..i], tg, p);
      ghost var before := requests;
      var j := 0;
      while j < |tg.spec.guardrails|
        invariant 0 <= j <= |tg.spec.guardrails| && requests == before
        invariant forall m | 0 <= m < j :: Resolve(tg.spec.guardrails[m], tg.key.ns) != guard
      {
        var guardRef := tg.spec.guardrails[j];
        var guardNamespace := guardRef.ns;
        if guardNamespace == "" {
          guardNamespace := tg.key.ns;
        }
        if guardRef.name == guard.name && guardNamespace == guard.ns {
          assert Resolve(guardRef, tg.key.ns) == guard;
          assert p(tg);
          requests := requests + [tg.key];
          break;
        }
        j := j + 1;
      }
    }
    assert gateways[..|gateways|] == gateways;
  }

  // ------------------------------------------------------ provider -> gateways

  /** The string the source keys its set of affected guards by. */
  function Slashed(k: Key): string {
    k.ns + "/" + k.name
  }

  predicate NoSlash(s: string) {
    forall i | 0 <= i < |s| :: s[i] != '/'
  }

  /** Namespaces contain no slash, so the string determines the key. */
  lemma SlashedInjective(a: Key, b: Key)
    requires NoSlash(a.ns) && NoSlash(b.ns) && Slashed(a) == Slashed(b)
    ensures a == b
  {
    var s := Slashed(a);
    assert s[|a.ns|] == '/' && s[|b.ns|] == '/';
    assert forall i | 0 <= i < |a.ns| :: s[i] == a.ns[i] != '/';
    assert forall i | 0 <= i < |b.ns| :: s[i] == b.ns[i] != '/';
    assert |a.ns| == |b.ns|;
    assert a.ns == s[..|a.ns|] && b.ns == s[..|b.ns|];
    assert a.name == s[|a.ns| + 1..] && b.name == s[|b.ns| + 1..];
  }

  predicate RefersToAffected(tg: GatewayObj, affected: set<string>) {
    exists i :: 0 <= i < |tg.spec.guardrails| && Slashed(Resolve(tg.spec.guardrails[i], tg.key.ns)) in affected
  }

  function AffectedGuards(guards: seq<GuardObj>, provider: Key): set<string> {
    set k | k in GuardWatch.GuardsForProvider(guards, provider) :: Slashed(k)
  }

  lemma SlashedSnoc(ks: seq<Key>, k: Key)
    ensures (set x | x in ks + [k] :: Slashed(x)) == (set x | x in ks :: Slashed(x)) + {Slashed(k)}
  {
    var all := set x | x in ks + [k] :: Slashed(x);
    assert k in ks + [k];
    assert Slashed(k) in all;
    forall x | x in ks ensures Slashed(x) in all { assert x in ks + [k]; }
  }

  function GatewaysForProvider(guards: seq<GuardObj>, gateways: seq<GatewayObj>, provider: Key): seq<Key> {
    var affected := AffectedGuards(guards, provider);
    KeysWhere(gateways, tg => RefersToAffected(tg, affected))
  }

  method CollectAffectedGuards(guards: seq<GuardObj>, provider: Key) returns (affectedGuards: set<string>)
    ensures affectedGuards == AffectedGuards(guards, provider)
  {
    affectedGuards := {};
    for i := 0 to |guards|
      invariant affectedGuards == AffectedGuards(guards[..i], provider)
    {
      var guard := guards[i];
      assert guards[..i + 1] == guards[..i] + [guard];
      KeysWhereSnoc(guards[..i], guard, g => GuardWatch.UsesProvider(g, provider));
      var providerNamespace := guard.spec.providerRef.ns;
      if providerNamespace == "" {
        providerNamespace := guard.key.ns;
      }
      ghost var was := GuardWatch.GuardsForProvider(guards[..i], provider);
      if guard.spec.providerRef.name == provider.name && providerNamespace == provider.ns {
        affectedGuards := affectedGuards + {guard.key.ns + "/" + guard.key.name};
        SlashedSnoc(was, guard.key);
        assert GuardWatch.GuardsForProvider(guards[..i + 1], provider) == was + [guard.key];
      } else {
        assert GuardWatch.GuardsForProvider(guards[..i + 1], provider) == was;
      }
    }
    assert guards[..|guards|] == guards;
  }

  method FindToolGatewayForGuardrailProvider(guards: seq<GuardObj>, gateways: seq<GatewayObj>, provider: Key)
    returns (requests: seq<Key>)
    ensures requests == GatewaysForProvider(guards, gateways, provider)
  {
    var affectedGuards := CollectAffectedGuards(guards, provider);
    ghost var p := tg => RefersToAffected(tg, affectedGuards);
    requests := [];
    for i := 0 to |gateways|
      invariant requests == KeysWhere(gateways[..i], p)
    {
      var tg := gateways[i];
      assert gateways[..i + 1] == gateways[..i] + [tg];
      KeysWhereSnoc(gateways[..i], tg, p);
      ghost var before := requests;
      var j := 0;
      while j < |tg.spec.guardrails|
        invariant 0 <= j <= |tg.spec.guardrails| && requests == before
        invariant forall m | 0 <= m < j :: Slashed(Resolve(tg.spec.guardrails[m], tg.key.ns)) !in affectedGuards
      {
        var guardRef := tg.spec.guardrails[j];
        var guardNamespace := guardRef.ns;
        if guardNamespace == "" {
          guardNamespace := tg.key.ns;
        }
        var guardKey := guardNamespace + "/" + guardRef.name;
        assert guardKey == Slashed(Resolve(guardRef, tg.key.ns));
        if guardKey in affectedGuards {
          assert p(tg);
          requests := requests + [tg.key];
          break;
        }
        j := j + 1;
      }
    }
    assert gateways[..|gateways|] == gateways;
  }

  /** No namespace that occurs in the lists contains a slash. */
  predicate SlashFree(guards: seq<GuardObj>, gateways: seq<GatewayObj>) {
    && (forall g | g in guards :: NoSlash(g.key.ns))
    && (forall tg | tg in gateways :: NoSlash(tg.key.ns)
          && forall i | 0 <= i < |tg.spec.guardrails| :: NoSlash(tg.spec.guardrails[i].ns))
  }

  /** The provider mapping against the composition of the Guard controller's
      mapping (provider to guards) with the guard mapping (guard to gateways): it
      never misses a gateway, and with slash-free namespaces it adds none. */
  lemma ProviderMappingComposes(guards: seq<GuardObj>, gateways: seq<GatewayObj>, provider: Key, k: Key)
    ensures (exists g :: g in GuardWatch.GuardsForProvider(guards, provider) && k in GatewaysForGuard(gateways, g))
            ==> k in GatewaysForProvider(guards, gateways, provider)
    ensures SlashFree(guards, gateways) && k in GatewaysForProvider(guards, gateways, provider)
            ==> exists g :: g in GuardWatch.GuardsForProvider(guards, provider) && k in GatewaysForGuard(gateways, g)
  {
    var affected := AffectedGuards(guards, provider);
    KeysWhereMembers(gateways, tg => RefersToAffected(tg, affected), k);
    if SlashFree(guards, gateways) && k in GatewaysForProvider(guards, gateways, provider) {
      var tg :| tg in gateways && tg.key == k && RefersToAffected(tg, affected);
      var i :| 0 <= i < |tg.spec.guardrails| && Slashed(Resolve(tg.spec.guardrails[i], tg.key.ns)) in affected;
      var r := Resolve(tg.spec.guardrails[i], tg.key.ns);
      var g :| g in GuardWatch.GuardsForProvider(guards, provider) && Slashed(g) == Slashed(r);
      GuardWatch.MappingInvertsReference(guards, provider, g);
      SlashedInjective(g, r);
      KeysWhereMembers(gateways, x => RefersTo(x, g), k);
      assert RefersTo(tg, g);
    }
    if g :| g in GuardWatch.GuardsForProvider(guards, provider) && k in GatewaysForGuard(gateways, g) {
      KeysWhereMembers(gateways, x => RefersTo(x, g), k);
      var tg :| tg in gateways && tg.key == k && RefersTo(tg, g);
      var i :| 0 <= i < |tg.spec.guardrails| && Resolve(tg.spec.guardrails[i], tg.key.ns) == g;
      assert Slashed(Resolve(tg.spec.guardrails[i], tg.key.ns)) in affected;
      assert RefersToAffected(tg, affected);
    }
  }

  // --------------------------------------------------------------- controller

  /** A Guard as this controller reads it: its Ready condition, if it has one. */
  datatype ReadyCondition = NoCondition | Ready | NotReady(reason: string, message: string)

  datatype World = World(gateways: seq<GatewayObj>, guards: seq<Obj<ReadyCondition>>)

  datatype Event = GatewayChanged(key: Key) | GuardChanged(key: Key)

  datatype Query = GetGateway(key: Key) | GetGuard(key: Key)

  datatype Answer = GatewayIs(spec: Option<GatewaySpec>) | GuardIs(condition: Option<ReadyCondition>)

  /** The gateway; and the Guard, if the gateway is ours and names exactly one. */
  function Ask(classes: seq<Class>, k: Key, t: seq<Answer>): Option<Query> {
    if |t| == 0 then Some(GetGateway(k))
    else if |t| == 1 && t[0].GatewayIs? && t[0].spec.Some? &&
            Owned(classes, t[0].spec.value.className) && |t[0].spec.value.guardrails| == 1 then
      Some(GetGuard(Resolve(t[0].spec.value.guardrails[0], k.ns)))
    else None
  }

  function AnswerOf(w: World, q: Query): Answer {
    match q
    case GetGateway(k) => GatewayIs(Lookup(w.gateways, k))
    case GetGuard(k) => GuardIs(Lookup(w.guards, k))
  }

  function Mapped(w: World, e: Event): set<Key> {
    match e
    case GatewayChanged(k) => {k}
    case GuardChanged(g) => set k | k in GatewaysForGuard(w.gateways, g)
  }

  function GatewayController(classes: seq<Class>): Controller<Key, World, Query, Answer, Event> {
    Controller(
      (k, t) => Ask(classes, k, t),
      (w, q) => AnswerOf(w, q),
      (w, e) => Mapped(w, e),
      (w: World, k) => Lookup(w.gateways, k).Some?)
  }

  ghost predicate Only(w: World, w': World, e: Event) {
    match e
    case GatewayChanged(k) => w'.guards == w.guards && ChangedOnlyAt(w.gateways, w'.gateways, k)
    case GuardChanged(g) => w'.gateways == w.gateways && ChangedOnlyAt(w.guards, w'.guards, g)
  }

  lemma AnswersUnaffected(classes: seq<Class>, w: World, w': World, e: Event, k: Key, t: seq<Answer>)
    requires Only(w, w', e) && k !in Mapped(w', e)
    requires Consistent(GatewayController(classes), w, k, t)
    ensures Consistent(GatewayController(classes), w', k, t)
  {
    var c := GatewayController(classes);
    forall i | 0 <= i < |t| ensures ReadAt(c, w', k, t, i) {
      assert ReadAt(c, w, k, t, i);
      if e.GatewayChanged? { LookupUnchanged(w.gateways, w'.gateways, e.key, k); }
      if i > 0 {
        assert i == 1 && t[..1][0] == t[0];
        assert ReadAt(c, w, k, t, 0);
        var spec := t[0].spec.value;
        if e.GuardChanged? {
          LookupMember(w.gateways, k);
          KeysWhereMembers(w.gateways, tg => RefersTo(tg, e.key), k);
          assert !RefersTo(Obj(k, spec), e.key);
          assert Resolve(spec.guardrails[0], k.ns) != e.key;
          LookupUnchanged(w.guards, w'.guards, e.key, Resolve(spec.guardrails[0], k.ns));
        }
      }
    }
  }

  lemma EventsUnaffected(w: World, w': World, e: Event, k: Key, d: Event)
    requires Only(w, w', e) && k !in Mapped(w', e) && k in Mapped(w, d)
    ensures k in Mapped(w', d)
  {
    if e.GatewayChanged? && d.GuardChanged? {
      KeysWhereKept(w.gateways, w'.gateways, tg => RefersTo(tg, d.key), e.key, k);
    }
  }

  lemma GatewayWatchesCover(classes: seq<Class>)
    ensures Covers(GatewayController(classes), Only)
  {
    var c := GatewayController(classes);
    forall w, w', e, k | Only(w, w', e) && k !in c.mapped(w', e) ensures Unaffected(c, w, w', k) {
      forall t | Consistent(c, w, k, t) ensures Consistent(c, w', k, t) {
        AnswersUnaffected(classes, w, w', e, k, t);
      }
      forall d | k in c.mapped(w, d) ensures k in c.mapped(w', d) {
        EventsUnaffected(w, w', e, k, d);
      }
      if e.GatewayChanged? { LookupUnchanged(w.gateways, w'.gateways, e.key, k); }
    }
  }

  /** In every run, an idle ToolGateway with exactly one guard was last reconciled on
      that guard's present Ready condition: no status change of a Guard is missed. */
  lemma IdleGatewayIsCurrent(classes: seq<Class>, ss: seq<State<World, Key, Answer, Event>>, k: Key)
    requires Run(GatewayController(classes), Only, ss)
    requires var s := ss[|ss| - 1];
             k !in s.running && !Awaited(GatewayController(classes), s, k) && Lookup(s.world.gateways, k).Some?
    ensures var s := ss[|ss| - 1];
            var spec := Lookup(s.world.gateways, k).value;
            && k in s.last && |s.last[k]| > 0 && s.last[k][0] == GatewayIs(Some(spec))
            && (Owned(classes, spec.className) && |spec.guardrails| == 1 ==>
                  s.last[k] == [GatewayIs(Some(spec)),
                                GuardIs(Lookup(s.world.guards, Resolve(spec.guardrails[0], k.ns)))])
  {
    var c := GatewayController(classes);
    var s := ss[|ss| - 1];
    GatewayWatchesCover(classes);
    NoLostWakeups(c, Only, ss);
    assert UpToDate(c, s, k);
    var t := s.last[k];
    assert |t| > 0;
    assert ReadAt(c, s.world, k, t, 0);
    ReadsBounded(c, s.world, k, t, 2);
    if |t| > 1 {
      assert ReadAt(c, s.world, k, t, 1);
      assert t[..1] == [t[0]];
    }
  }
}
