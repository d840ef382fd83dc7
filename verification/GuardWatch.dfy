/** The Guard controller's watches: an edit of a Guard or of the GuardrailProvider
    it refers to always reaches the queue. */
module GuardWatch {
  import opened Wrappers
  import opened Objects
  import opened GuardConfig
  import opened Watch

  type GuardObj = Obj<GuardSpec>

  datatype World = World(guards: seq<GuardObj>, providers: seq<Obj<ProviderSpec>>)

  datatype Event = GuardChanged(key: Key) | ProviderChanged(key: Key)

  datatype Query = GetGuard(key: Key) | GetProvider(key: Key)

  datatype Answer = GuardIs(guard: Option<GuardSpec>) | ProviderIs(provider: Option<ProviderSpec>)

  // ------------------------------------------------------------------ mapping

  function ProviderKey(k: Key, g: GuardSpec): Key {
    Resolve(g.providerRef, k.ns)
  }

  predicate UsesProvider(g: GuardObj, provider: Key) {
    ProviderKey(g.key, g.spec) == provider
  }

  function GuardsForProvider(guards: seq<GuardObj>, provider: Key): seq<Key> {
    KeysWhere(guards, g => UsesProvider(g, provider))
  }

  method FindGuardsForProvider(guards: seq<GuardObj>, provider: Key) returns (reqs: seq<Key>)
    ensures reqs == GuardsForProvider(guards, provider)
  {
    ghost var p := g => UsesProvider(g, provider);
    reqs := [];
    for i := 0 to |guards|
      invariant reqs == KeysWhere(guards[..i], p)
    {
      var g := guards[i];
      assert guards[..i + 1] == guards[..i] + [g];
      KeysWhereSnoc(guards[..i], g, p);
      var ns := g.spec.providerRef.ns;
      if ns == "" {
        ns := g.key.ns;
      }
      if g.spec.providerRef.name == provider.name && ns == provider.ns {
        reqs := reqs + [g.key];
      }
    }
    assert guards[..|guards|] == guards;
  }

  /** The mapping inverts the reference: it lists exactly the Guards whose
      reference resolves to the provider. */
  lemma MappingInvertsReference(guards: seq<GuardObj>, provider: Key, k: Key)
    ensures k in GuardsForProvider(guards, provider)
            <==> exists g :: g in guards && g.key == k && PointsTo(g.spec.providerRef, k.ns, provider)
  {
    KeysWhereMembers(guards, g => UsesProvider(g, provider), k);
    if g :| g in guards && g.key == k && PointsTo(g.spec.providerRef, k.ns, provider) {
      assert UsesProvider(g, provider);
    }
  }

  // --------------------------------------------------------------- controller

  /** What a reconcile reads: the Guard; then, if it exists and the operator has an
      adapter image, the provider. */
  function Ask(image: string, k: Key, t: seq<Answer>): Option<Query> {
    if |t| == 0 then Some(GetGuard(k))
    else if |t| == 1 && t[0].GuardIs? && t[0].guard.Some? && image != "" then
      Some(GetProvider(ProviderKey(k, t[0].guard.value)))
    else None
  }

  function AnswerOf(w: World, q: Query): Answer {
    match q
    case GetGuard(k) => GuardIs(Lookup(w.guards, k))
    case GetProvider(k) => ProviderIs(Lookup(w.providers, k))
  }

  function Mapped(w: World, e: Event): set<Key> {
    match e
    case GuardChanged(k) => {k}
    case ProviderChanged(p) => set k | k in GuardsForProvider(w.guards, p)
  }

  function GuardController(image: string): Controller<Key, World, Query, Answer, Event> {
    Controller(
      (k, t) => Ask(image, k, t),
      (w, q) => AnswerOf(w, q),
      (w, e) => Mapped(w, e),
      (w: World, k) => Lookup(w.guards, k).Some?)
  }

  ghost predicate Only(w: World, w': World, e: Event) {
    match e
    case GuardChanged(k) => w'.providers == w.providers && ChangedOnlyAt(w.guards, w'.guards, k)
    case ProviderChanged(p) => w'.guards == w.guards && ChangedOnlyAt(w.providers, w'.providers, p)
  }

  lemma AnswersUnaffected(image: string, w: World, w': World, e: Event, k: Key, t: seq<Answer>)
    requires Only(w, w', e) && k !in Mapped(w', e)
    requires Consistent(GuardController(image), w, k, t)
    ensures Consistent(GuardController(image), w', k, t)
  {
    var c := GuardController(image);
    forall i | 0 <= i < |t| ensures ReadAt(c, w', k, t, i) {
      assert ReadAt(c, w, k, t, i);
      if e.GuardChanged? { LookupUnchanged(w.guards, w'.guards, e.key, k); }
      if i > 0 {
        assert i == 1 && t[..1][0] == t[0];
        assert ReadAt(c, w, k, t, 0);
        var g := t[0].guard.value;
        if e.ProviderChanged? {
          LookupMember(w.guards, k);
          MappingInvertsReference(w.guards, e.key, k);
          assert Obj(k, g) in w.guards;
          LookupUnchanged(w.providers, w'.providers, e.key, ProviderKey(k, g));
        }
      }
    }
  }

  lemma EventsUnaffected(w: World, w': World, e: Event, k: Key, d: Event)
    requires Only(w, w', e) && k !in Mapped(w', e) && k in Mapped(w, d)
    ensures k in Mapped(w', d)
  {
    if e.GuardChanged? && d.ProviderChanged? {
      KeysWhereKept(w.guards, w'.guards, g => UsesProvider(g, d.key), e.key, k);
    }
  }

  /** The watches of the Guard controller cover everything a reconcile reads. */
  lemma GuardWatchesCover(image: string)
    ensures Covers(GuardController(image), Only)
  {
    var c := GuardController(image);
    forall w, w', e, k | Only(w, w', e) && k !in c.mapped(w', e) ensures Unaffected(c, w, w', k) {
      forall t | Consistent(c, w, k, t) ensures Consistent(c, w', k, t) {
        AnswersUnaffected(image, w, w', e, k, t);
      }
      forall d | k in c.mapped(w, d) ensures k in c.mapped(w', d) {
        EventsUnaffected(w, w', e, k, d);
      }
      if e.GuardChanged? { LookupUnchanged(w.guards, w'.guards, e.key, k); }
    }
  }

  /** The plan a finished reconcile acted on, from what it read. */
  function PlanRead(enc: Encoding, image: string, t: seq<Answer>): Option<Plan> {
    if |t| == 0 || !t[0].GuardIs? || t[0].guard.None? then None
    else
      Some(PlanOf(enc, image, t[0].guard.value,
                  if |t| > 1 && t[1].ProviderIs? then t[1].provider else None))
  }

  /** No lost wakeups: in every run, a Guard that is neither queued nor in flight
      nor awaiting an event was last reconciled with the plan its present spec and
      present provider call for; terminal outcomes, which are not retried, included. */
  lemma IdleGuardIsCurrent(
    enc: Encoding, image: string, ss: seq<State<World, Key, Answer, Event>>, k: Key)
    requires Run(GuardController(image), Only, ss)
    requires var s := ss[|ss| - 1];
             k !in s.running && !Awaited(GuardController(image), s, k) && Lookup(s.world.guards, k).Some?
    ensures var s := ss[|ss| - 1];
            var g := Lookup(s.world.guards, k).value;
            k in s.last && PlanRead(enc, image, s.last[k])
                           == Some(PlanOf(enc, image, g, Lookup(s.world.providers, ProviderKey(k, g))))
  {
    var c := GuardController(image);
    var s := ss[|ss| - 1];
    GuardWatchesCover(image);
    NoLostWakeups(c, Only, ss);
    assert UpToDate(c, s, k);
    var t := s.last[k];
    assert |t| > 0;
    assert ReadAt(c, s.world, k, t, 0);
    ReadsBounded(c, s.world, k, t, 2);
    if |t| > 1 {
      assert ReadAt(c, s.world, k, t, 1);
      assert t[..1] == [t[0]];
    }
  }
}
