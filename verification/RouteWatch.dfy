/** The ToolRoute controller's watches: a change of a ToolRoute, of the ToolGateway
    it resolves to (by reference or by default) or of its ToolServer always reaches
    the queue.  The list of ToolGatewayClasses is fixed: it is not watched. */
module RouteWatch {
  import opened Wrappers
  import opened Objects
  import opened ClassOwnership
  import ToolFilter
  import opened Watch

  datatype Upstream = ToolServerRef(ref: Ref) | External(url: string) | NoUpstream

  datatype RouteSpec = RouteSpec(gatewayRef: Option<Ref>, upstream: Upstream, filter: Option<ToolFilter.Filter>)

  datatype ServerSpec = ServerSpec(port: int, path: string)

  type RouteObj = Obj<RouteSpec>

  datatype World = World(routes: seq<RouteObj>, gateways: seq<GatewayObj>, servers: seq<Obj<ServerSpec>>)

  datatype Event = RouteChanged(key: Key) | GatewayChanged(key: Key) | ServerChanged(key: Key)

  datatype Query = GetRoute(key: Key) | ListDefault | GetGateway(key: Key) | GetServer(key: Key)

  datatype Answer =
    | RouteIs(route: Option<RouteSpec>)
    | DefaultIs(gateway: Option<Key>)
    | GatewayIs(spec: Option<GatewaySpec>)
    | ServerIs(server: Option<ServerSpec>)

  // ----------------------------------------------------------------- mappings

  /** The gateway handler enqueues this route for a change of `tg`. */
  predicate TargetsGateway(route: RouteObj, tg: Key) {
    match route.spec.gatewayRef
    case None => tg.ns == DEFAULT_NAMESPACE
    case Some(r) => Resolve(r, route.key.ns) == tg
  }

  predicate TargetsServer(route: RouteObj, ts: Key) {
    route.spec.upstream.ToolServerRef? && Resolve(route.spec.upstream.ref, route.key.ns) == ts
  }

  function RoutesForGateway(routes: seq<RouteObj>, tg: Key): seq<Key> {
    KeysWhere(routes, r => TargetsGateway(r, tg))
  }

  function RoutesForServer(routes: seq<RouteObj>, ts: Key): seq<Key> {
    KeysWhere(routes, r => TargetsServer(r, ts))
  }

  /** The mappings list exactly the routes that resolve to the changed object, or fall
      back to its namespace. */
  lemma MappingsInvertReferences(routes: seq<RouteObj>, changed: Key, k: Key)
    ensures k in RoutesForGateway(routes, changed) <==>
            exists r :: r in routes && r.key == k &&
              (if r.spec.gatewayRef.Some? then PointsTo(r.spec.gatewayRef.value, k.ns, changed)
               else changed.ns == "tool-gateway")
    ensures k in RoutesForServer(routes, changed) <==>
            exists r :: r in routes && r.key == k &&
              r.spec.upstream.ToolServerRef? && PointsTo(r.spec.upstream.ref, k.ns, changed)
  {
    KeysWhereMembers(routes, r => TargetsGateway(r, changed), k);
    KeysWhereMembers(routes, r => TargetsServer(r, changed), k);
  }

  method FindToolRoutesForToolGateway(routes: seq<RouteObj>, tg: Key) returns (requests: seq<Key>)
    ensures requests == RoutesForGateway(routes, tg)
  {
    ghost var p := r => TargetsGateway(r, tg);
    requests := [];
    for i := 0 to |routes|
      invariant requests == KeysWhere(routes[..i], p)
    {
      var route := routes[i];
      assert routes[..i + 1] == routes[..i] + [route];
      KeysWhereSnoc(routes[..i], route, p);
      if route.spec.gatewayRef == None {
        if tg.ns == DEFAULT_NAMESPACE {
          requests := requests + [route.key];
        }
      } else {
        var gwNs := route.spec.gatewayRef.value.ns;
        if gwNs == "" {
          gwNs := route.key.ns;
        }
        if route.spec.gatewayRef.value.name == tg.name && gwNs == tg.ns {
          requests := requests + [route.key];
        }
      }
    }
    assert routes[..|routes|] == routes;
  }

  method FindToolRoutesForToolServer(routes: seq<RouteObj>, ts: Key) returns (requests: seq<Key>)
    ensures requests == RoutesForServer(routes, ts)
  {
    ghost var p := r => TargetsServer(r, ts);
    requests := [];
    for i := 0 to |routes|
      invariant requests == KeysWhere(routes[..i], p)
    {
      var route := routes[i];
      assert routes[..i + 1] == routes[..i] + [route];
      KeysWhereSnoc(routes[..i], route, p);
      if route.spec.upstream.ToolServerRef? {
        var tsNs := route.spec.upstream.ref.ns;
        if tsNs == "" {
          tsNs := route.key.ns;
        }
        if route.spec.upstream.ref.name == ts.name && tsNs == ts.ns {
          requests := requests + [route.key];
        }
      }
    }
    assert routes[..|routes|] == routes;
  }

  // --------------------------------------------------------------- controller

  /** The reads behind the choice of the ToolGateway: `n` of them are done. */
  function AskUpstream(classes: seq<Class>, k: Key, r: RouteSpec, g: Answer): Option<Query> {
    if g.GatewayIs? && g.spec.Some? && Owned(classes, g.spec.value.className) && r.upstream.ToolServerRef? then
      Some(GetServer(Resolve(r.upstream.ref, k.ns)))
    else None
  }

  /** The route; its gateway key, listing the default namespace only without an
      explicit reference; the gateway; and, if the gateway is ours, the ToolServer. */
  function Ask(classes: seq<Class>, k: Key, t: seq<Answer>): Option<Query> {
    if |t| == 0 then Some(GetRoute(k))
    else if !t[0].RouteIs? || t[0].route.None? then None
    else
      var r := t[0].route.value;
      match r.gatewayRef
      case Some(ref) =>
        if |t| == 1 then Some(GetGateway(Resolve(ref, k.ns)))
        else if |t| == 2 then AskUpstream(classes, k, r, t[1])
        else None
      case None =>
        if |t| == 1 then Some(ListDefault)
        else if |t| == 2 then
          if t[1].DefaultIs? && t[1].gateway.Some? then Some(GetGateway(t[1].gateway.value)) else None
        else if |t| == 3 then AskUpstream(classes, k, r, t[2])
        else None
  }

  function AnswerOf(w: World, q: Query): Answer {
    match q
    case GetRoute(k) => RouteIs(Lookup(w.routes, k))
    case ListDefault => DefaultIs(DefaultGateway(w.gateways))
    case GetGateway(k) => GatewayIs(Lookup(w.gateways, k))
    case GetServer(k) => ServerIs(Lookup(w.servers, k))
  }

  function Mapped(w: World, e: Event): set<Key> {
    match e
    case RouteChanged(k) => {k}
    case GatewayChanged(g) => set k | k in RoutesForGateway(w.routes, g)
    case ServerChanged(s) => set k | k in RoutesForServer(w.routes, s)
  }

  function RouteController(classes: seq<Class>): Controller<Key, World, Query, Answer, Event> {
    Controller(
      (k, t) => Ask(classes, k, t),
      (w, q) => AnswerOf(w, q),
      (w, e) => Mapped(w, e),
      (w: World, k) => Lookup(w.routes, k).Some?)
  }

  ghost predicate Only(w: World, w': World, e: Event) {
    match e
    case RouteChanged(k) =>
      w'.gateways == w.gateways && w'.servers == w.servers && ChangedOnlyAt(w.routes, w'.routes, k)
    case GatewayChanged(k) =>
      w'.routes == w.routes && w'.servers == w.servers && ChangedOnlyAt(w.gateways, w'.gateways, k)
    case ServerChanged(k) =>
      w'.routes == w.routes && w'.gateways == w.gateways && ChangedOnlyAt(w.servers, w'.servers, k)
  }

  /** The default gateway lives in the default namespace. */
  lemma {:induction false} InNamespaceKeys(gateways: seq<GatewayObj>, ns: string)
    ensures forall i | 0 <= i < |InNamespace(gateways, ns)| :: InNamespace(gateways, ns)[i].key.ns == ns
  {
    if gateways != [] { InNamespaceKeys(gateways[1..], ns); }
  }

  /** One read of a route: a change that is not mapped to the route does not change
      its answer. */
  lemma AnswerUnaffected(classes: seq<Class>, w: World, w': World, e: Event, k: Key, t: seq<Answer>, i: nat)
    requires Only(w, w', e) && k !in Mapped(w', e) && i < |t|
    requires Consistent(RouteController(classes), w, k, t)
    ensures ReadAt(RouteController(classes), w', k, t, i)
  {
    var c := RouteController(classes);
    assert ReadAt(c, w, k, t, i);
    if i == 0 {
      if e.RouteChanged? { LookupUnchanged(w.routes, w'.routes, e.key, k); }
    } else {
      assert ReadAt(c, w, k, t, 0);
      assert t[..0] == [] && t[..i][0] == t[0];
      var r := t[0].route.value;
      LookupMember(w.routes, k);
      assert Obj(k, r) in w.routes;
      if e.GatewayChanged? {
        KeysWhereMembers(w.routes, x => TargetsGateway(x, e.key), k);
        assert !TargetsGateway(Obj(k, r), e.key);
        GatewayAnswerUnaffected(classes, w, w', e.key, k, t, i);
      } else if e.ServerChanged? {
        KeysWhereMembers(w.routes, x => TargetsServer(x, e.key), k);
        assert !TargetsServer(Obj(k, r), e.key);
        var q := c.ask(k, t[..i]).value;
        if q.GetServer? { LookupUnchanged(w.servers, w'.servers, e.key, q.key); }
      }
    }
  }

  lemma GatewayAnswerUnaffected(
    classes: seq<Class>, w: World, w': World, g: Key, k: Key, t: seq<Answer>, i: nat)
    requires Only(w, w', GatewayChanged(g)) && 0 < i < |t|
    requires Consistent(RouteController(classes), w, k, t)
    requires t[0].RouteIs? && t[0].route.Some? && !TargetsGateway(Obj(k, t[0].route.value), g)
    ensures ReadAt(RouteController(classes), w', k, t, i)
  {
    var c := RouteController(classes);
    assert ReadAt(c, w, k, t, i);
    assert t[..i][0] == t[0];
    var q := c.ask(k, t[..i]).value;
    if q.ListDefault? {
      DefaultUnchanged(w.gateways, w'.gateways, g);
    } else if q.GetGateway? {
      if t[0].route.value.gatewayRef.None? {
        assert i == 2 && t[..i][1] == t[1];
        assert ReadAt(c, w, k, t, 1);
        assert t[..1] == [t[0]];
        InNamespaceKeys(w.gateways, DEFAULT_NAMESPACE);
      }
      LookupUnchanged(w.gateways, w'.gateways, g, q.key);
    }
  }

  lemma EventsUnaffected(w: World, w': World, e: Event, k: Key, d: Event)
    requires Only(w, w', e) && k !in Mapped(w', e) && k in Mapped(w, d)
    ensures k in Mapped(w', d)
  {
    if e.RouteChanged? {
      match d {
        case RouteChanged(_) =>
        case GatewayChanged(g) => KeysWhereKept(w.routes, w'.routes, x => TargetsGateway(x, g), e.key, k);
        case ServerChanged(s) => KeysWhereKept(w.routes, w'.routes, x => TargetsServer(x, s), e.key, k);
      }
    }
  }

  /** The watches of the ToolRoute controller cover everything a reconcile reads,
      the look-up in the default namespace included. */
  lemma RouteWatchesCover(classes: seq<Class>)
    ensures Covers(RouteController(classes), Only)
  {
    var c := RouteController(classes);
    forall w, w', e, k | Only(w, w', e) && k !in c.mapped(w', e) ensures Unaffected(c, w, w', k) {
      forall t | Consistent(c, w, k, t) ensures Consistent(c, w', k, t) {
        forall i | 0 <= i < |t| ensures ReadAt(c, w', k, t, i) {
          AnswerUnaffected(classes, w, w', e, k, t, i);
        }
      }
      forall d | k in c.mapped(w, d) ensures k in c.mapped(w', d) {
        EventsUnaffected(w, w', e, k, d);
      }
      if e.RouteChanged? { LookupUnchanged(w.routes, w'.routes, e.key, k); }
    }
  }

  // ------------------------------------------------------------------- result

  /** What the resolution functions yield for a route on a world: the gateway it
      targets with that gateway's spec, and its ToolServer. */
  datatype Inputs = Inputs(
    route: RouteSpec, gateway: Option<Key>, spec: Option<GatewaySpec>, server: Option<ServerSpec>)

  function CurrentInputs(classes: seq<Class>, w: World, k: Key, r: RouteSpec): Inputs {
    var g := ResolveToolGatewayKey(r.gatewayRef, k.ns, w.gateways);
    var spec := if g.Some? then Lookup(w.gateways, g.value) else None;
    var server :=
      if spec.Some? && Owned(classes, spec.value.className) && r.upstream.ToolServerRef? then
        Lookup(w.servers, Resolve(r.upstream.ref, k.ns))
      else None;
    Inputs(r, g, spec, server)
  }

  /** The same, from the answers a reconcile read. */
  function ReadInputs(k: Key, t: seq<Answer>): Option<Inputs> {
    if |t| == 0 || !t[0].RouteIs? || t[0].route.None? then None
    else
      var r := t[0].route.value;
      var n := if r.gatewayRef.Some? then 1 else 2;
      var g := if r.gatewayRef.Some? then Some(Resolve(r.gatewayRef.value, k.ns))
               else if |t| > 1 && t[1].DefaultIs? then t[1].gateway else None;
      Some(Inputs(r, g,
                  if |t| > n && t[n].GatewayIs? then t[n].spec else None,
                  if |t| > n + 1 && t[n + 1].ServerIs? then t[n + 1].server else None))
  }

  /** The answers of a complete reconcile, one by one. */
  lemma ReadsOneByOne(classes: seq<Class>, w: World, k: Key, t: seq<Answer>)
    requires Consistent(RouteController(classes), w, k, t) && Ask(classes, k, t) == None
    ensures 0 < |t| <= 4
    ensures t[0] == RouteIs(Lookup(w.routes, k))
    ensures |t| > 1 ==> Ask(classes, k, [t[0]]).Some? && t[1] == AnswerOf(w, Ask(classes, k, [t[0]]).value)
    ensures |t| > 2 ==> Ask(classes, k, t[..2]).Some? && t[2] == AnswerOf(w, Ask(classes, k, t[..2]).value)
    ensures |t| > 3 ==> Ask(classes, k, t[..3]).Some? && t[3] == AnswerOf(w, Ask(classes, k, t[..3]).value)
  {
    var c := RouteController(classes);
    ReadsBounded(c, w, k, t, 4);
    assert ReadAt(c, w, k, t, 0);
    if |t| > 1 { assert ReadAt(c, w, k, t, 1); assert t[..1] == [t[0]]; }
    if |t| > 2 { assert ReadAt(c, w, k, t, 2); }
    if |t| > 3 { assert ReadAt(c, w, k, t, 3); }
  }

  lemma ExplicitReadsAreCurrent(classes: seq<Class>, w: World, k: Key, t: seq<Answer>, r: RouteSpec)
    requires Consistent(RouteController(classes), w, k, t) && Ask(classes, k, t) == None
    requires Lookup(w.routes, k) == Some(r) && r.gatewayRef.Some?
    ensures ReadInputs(k, t) == Some(CurrentInputs(classes, w, k, r))
  {
    ReadsOneByOne(classes, w, k, t);
    assert |t| >= 2;
    assert t[1] == GatewayIs(Lookup(w.gateways, Resolve(r.gatewayRef.value, k.ns)));
    if |t| > 2 { assert t[..2][0] == t[0] && t[..2][1] == t[1]; }
  }

  lemma DefaultReadsAreCurrent(classes: seq<Class>, w: World, k: Key, t: seq<Answer>, r: RouteSpec)
    requires Consistent(RouteController(classes), w, k, t) && Ask(classes, k, t) == None
    requires Lookup(w.routes, k) == Some(r) && r.gatewayRef.None?
    ensures ReadInputs(k, t) == Some(CurrentInputs(classes, w, k, r))
  {
    ReadsOneByOne(classes, w, k, t);
    assert |t| >= 2;
    assert t[1] == DefaultIs(DefaultGateway(w.gateways));
    if |t| > 2 {
      assert t[..2][0] == t[0] && t[..2][1] == t[1];
      assert t[2] == GatewayIs(Lookup(w.gateways, t[1].gateway.value));
      if |t| > 3 { assert t[..3][0] == t[0] && t[..3][2] == t[2]; }
    }
  }

  lemma CompleteReadsAreCurrent(classes: seq<Class>, w: World, k: Key, t: seq<Answer>)
    requires Consistent(RouteController(classes), w, k, t) && Ask(classes, k, t) == None
    requires Lookup(w.routes, k).Some?
    ensures ReadInputs(k, t) == Some(CurrentInputs(classes, w, k, Lookup(w.routes, k).value))
  {
    var r := Lookup(w.routes, k).value;
    if r.gatewayRef.Some? {
      ExplicitReadsAreCurrent(classes, w, k, t, r);
    } else {
      DefaultReadsAreCurrent(classes, w, k, t, r);
    }
  }

  /** No lost wakeups: in every run, a ToolRoute that is neither queued nor in
      flight nor awaiting an event was last reconciled on its present spec, the
      gateway it resolves to at present, and its present ToolServer. */
  lemma IdleRouteIsCurrent(classes: seq<Class>, ss: seq<State<World, Key, Answer, Event>>, k: Key)
    requires Run(RouteController(classes), Only, ss)
    requires var s := ss[|ss| - 1];
             k !in s.running && !Awaited(RouteController(classes), s, k) && Lookup(s.world.routes, k).Some?
    ensures var s := ss[|ss| - 1];
            k in s.last && ReadInputs(k, s.last[k])
                           == Some(CurrentInputs(classes, s.world, k, Lookup(s.world.routes, k).value))
  {
    var c := RouteController(classes);
    var s := ss[|ss| - 1];
    RouteWatchesCover(classes);
    NoLostWakeups(c, Only, ss);
    assert UpToDate(c, s, k);
    CompleteReadsAreCurrent(classes, s.world, k, s.last[k]);
  }
}
