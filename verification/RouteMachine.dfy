/** The ToolRoute reconciler as a step machine: all ToolRoutes, the objects they make,
    and any number of reconciles in flight.

    A route's objects are named after the gateway and the route, and two routes can
    come to the same name.  What keeps them apart is the controller reference, the
    order backend, HTTPRoute, policy, and that the policy, which is deleted by name
    without looking at its owner, comes last.

    One step per API call, and calls may fail.  ToolRoutes, and what their look-ups
    return, change at any time, also while they are in flight; a route of the same name
    may come back at any time, under a new UID.  The garbage collector removes, one by
    one and at any later time, the objects whose controller is gone.  Others may edit the
    spec of an HTTPRoute, which is watched, and write nothing else.

    The machine allows any number of reconciles in flight, as with several workers or a
    second active instance.  The operator sets no number of workers and so has one;
    runs of that kind are the subject of RouteOneWorker.

    That every change of what a route's look-ups return queues the route, and that look-ups
    of a route that is not queued return present data, is proved of the watches in
    RouteWatch. */
module RouteMachine {
  import opened Wrappers
  import opened Objects
  import opened Api
  import opened Replay
  import ToolFilter

  datatype Kind = BackendKind | HttpRouteKind | PolicyKind

  datatype Id = Id(kind: Kind, key: Key)

  /** The MCP target of a backend. */
  datatype McpTarget = McpTarget(host: string, port: int, path: string)

  /** What the reconciler sets: in the HTTPRoute, the parent gateway, the backend and the
      path; in the policy, the name of the HTTPRoute it is for and the rules. */
  datatype Content =
    | Target(target: McpTarget)
    | Path(gateway: Key, backend: Key, path: string)
    | Rules(httpRoute: string, rules: seq<string>)

  /** A controller reference holds the UID, but is compared by name. */
  datatype ControllerRef = ControllerRef(route: Key, uid: nat)

  datatype Resource = Resource(owner: Option<ControllerRef>, content: Content)

  // ------------------------------------------------------------------- names

  function BaseName(gateway: string, route: Key): Key {
    Key(route.ns, gateway + "-" + route.name)
  }

  function BackendId(base: Key): Id { Id(BackendKind, base) }

  function HttpRouteId(base: Key): Id { Id(HttpRouteKind, base) }

  function PolicyId(base: Key): Id { Id(PolicyKind, Key(base.ns, base.name + "-toolfilter")) }

  function RoutePath(k: Key): string { "/" + k.ns + "/" + k.name + "/mcp" }

  /** The base name is not injective. */
  lemma BaseNamesCollide()
    ensures Key("ns", "b-c") != Key("ns", "c")
    ensures BaseName("a", Key("ns", "b-c")) == BaseName("a-b", Key("ns", "c"))
  {
    assert "a" + "-" + "b-c" == "a-b" + "-" + "c";
    assert |"b-c"| != |"c"|;
  }

  lemma PolicyIdInjective(a: Key, b: Key)
    requires PolicyId(a) == PolicyId(b)
    ensures a == b
  {
    var s, t := a.name + "-toolfilter", b.name + "-toolfilter";
    assert |a.name| == |s| - |"-toolfilter"| && |b.name| == |t| - |"-toolfilter"|;
    assert a.name == s[..|a.name|] && b.name == t[..|b.name|];
  }

  // -------------------------------------------------------------------- state

  /** What the look-ups of a route return: its gateway, its upstream, its filter. */
  datatype Found = Found(gateway: Key, target: McpTarget, filter: Option<ToolFilter.Filter>)

  /** Or no gateway of this controller, which ends a reconcile without a retry, or no
      upstream, which is an error. */
  datatype Inputs = NoGateway | NoUpstream | Resolved(found: Found)

  datatype Route = Route(uid: nat, inputs: Inputs)

  /** A reconcile in flight: the UID of the route it read, and what its look-ups returned. */
  datatype Job = Job(uid: nat, found: Found, pc: Pc)

  datatype Pc =
    | GetBackend | PutBackend(read: Option<Resource>)
    | GetHttpRoute | PutHttpRoute(read: Option<Resource>)
    | DeletePolicy | GetPolicy | PutPolicy(read: Option<Resource>)
    | Succeeded

  datatype State = State(
    routes: map<Key, Route>,   // the ToolRoutes that exist
    next: nat,                 // the next UID
    objects: map<Id, Resource>,
    queued: set<Key>,
    looking: map<Key, nat>,    // reconciles at their look-ups, with the UID they read
    running: map<Key, Job>)    // reconciles at their writes

  predicate InFlight(s: State, k: Key) {
    k in s.looking || k in s.running
  }

  function Base(k: Key, f: Found): Key { BaseName(f.gateway.name, k) }

  function RulesOf(f: Found): seq<string> { ToolFilter.RuleTexts(f.filter) }

  function Wanted(k: Key, uid: nat, content: Content): Resource {
    Resource(Some(ControllerRef(k, uid)), content)
  }

  function BackendWanted(k: Key, uid: nat, f: Found): Resource { Wanted(k, uid, Target(f.target)) }

  function HttpRouteWanted(k: Key, uid: nat, f: Found): Resource {
    Wanted(k, uid, Path(f.gateway, Base(k, f), RoutePath(k)))
  }

  function PolicyWanted(k: Key, uid: nat, f: Found): Resource {
    Wanted(k, uid, Rules(Base(k, f).name, RulesOf(f)))
  }

  /** The ToolRoute `k` that exists controls the object. */
  predicate HeldBy(s: State, id: Id, k: Key) {
    id in s.objects && k in s.routes && s.objects[id].owner == Some(ControllerRef(k, s.routes[k].uid))
  }

  /** The reconcile of `k` at its writes works for the ToolRoute that exists: it was not
      deleted, nor deleted and created again, since the reconcile started. */
  predicate Alive(s: State, k: Key) {
    k in s.running && k in s.routes && s.running[k].uid == s.routes[k].uid
  }

  // -------------------------------------------------- steps of the reconciler

  datatype Written = Failed | Stored(r: Resource) | Unchanged

  /** SetControllerReference succeeds: no controller, or one of the same name. */
  predicate MayControl(k: Key, c: Resource) {
    c.owner.Some? ==> c.owner.value.route == k
  }

  /** The write half of CreateOrPatch by route `k` on what is there now. */
  function PutOf(k: Key, read: Option<Resource>, want: Resource, current: Option<Resource>, r: Reply): Written {
    match read
    case None => if r == Refused || current.Some? then Failed else Stored(want)
    case Some(c) =>
      if !MayControl(k, c) then Failed
      else if c == want then Unchanged
      else if r == Refused || current.None? then Failed
      else
        Stored(Resource(Patched(c.owner, want.owner, current.value.owner),
                        Patched(c.content, want.content, current.value.content)))
  }

  /** A watched object changes: the routes named as its controller, before and after, are
      queued.  Of the three only HTTPRoutes are watched. */
  function Woken(id: Id, before: Option<Resource>, after: Option<Resource>): set<Key> {
    if id.kind == HttpRouteKind && before != after then Controllers(before) + Controllers(after) else {}
  }

  function Controllers(r: Option<Resource>): set<Key> {
    if r.Some? && r.value.owner.Some? then {r.value.owner.value.route} else {}
  }

  function WithObject(s: State, id: Id, r: Option<Resource>): State {
    s.(objects := Put(s.objects, id, r), queued := s.queued + Woken(id, Get(s.objects, id), r))
  }

  /** The reconcile ends with an error; its route is queued again. */
  function GiveUp(s: State, k: Key): State {
    s.(running := s.running - {k}, queued := s.queued + {k})
  }

  function Goto(s: State, k: Key, pc: Pc): State
    requires k in s.running
  {
    s.(running := s.running[k := s.running[k].(pc := pc)])
  }

  function DoPut(s: State, k: Key, id: Id, read: Option<Resource>, want: Resource, next: Pc, r: Reply): State
    requires k in s.running
  {
    match PutOf(k, read, want, Get(s.objects, id), r)
    case Failed => GiveUp(s, k)
    case Unchanged => Goto(s, k, next)
    case Stored(x) =>
      var s' := WithObject(s, id, Some(x));
      if r == Done then Goto(s', k, next) else GiveUp(s', k)
  }

  function PolicyPhase(f: Found): Pc {
    if RulesOf(f) == [] then DeletePolicy else GetPolicy
  }

  /** The next API call of the reconcile of `k`. */
  function Advance(s: State, k: Key, r: Reply): State
    requires k in s.running
  {
    var Job(uid, f, pc) := s.running[k];
    var b, h, p := BackendId(Base(k, f)), HttpRouteId(Base(k, f)), PolicyId(Base(k, f));
    match pc
    case GetBackend => if r == Done then Goto(s, k, PutBackend(Get(s.objects, b))) else GiveUp(s, k)
    case PutBackend(read) => DoPut(s, k, b, read, BackendWanted(k, uid, f), GetHttpRoute, r)
    case GetHttpRoute => if r == Done then Goto(s, k, PutHttpRoute(Get(s.objects, h))) else GiveUp(s, k)
    case PutHttpRoute(read) => DoPut(s, k, h, read, HttpRouteWanted(k, uid, f), PolicyPhase(f), r)
    case DeletePolicy =>
      var s' := if r == Refused then s else WithObject(s, p, None);
      if r == Done then Goto(s', k, Succeeded) else GiveUp(s', k)
    case GetPolicy => if r == Done then Goto(s, k, PutPolicy(Get(s.objects, p))) else GiveUp(s, k)
    case PutPolicy(read) => DoPut(s, k, p, read, PolicyWanted(k, uid, f), Succeeded, r)
    case Succeeded =>  // the status patch, after which the reconcile is over
      if r == Done then s.(running := s.running - {k}) else GiveUp(s, k)
  }

  // --------------------------------------------------------------------- runs

  datatype Event =
    | CreateRoute(route: Key, inputs: Inputs)
    | EditInputs(route: Key, inputs: Inputs)
    | DeleteRoute(route: Key)
    | Nudge(route: Key)
    | Collect(id: Id)
    | Drift(id: Id, content: Content)
    | Start(route: Key)
    | LookUp(route: Key, inputs: Inputs, reply: Reply)
    | Call(route: Key, reply: Reply)

  /** Only objects whose controller does not exist are collected.  Look-ups return what is
      true now, unless something has changed since the reconcile started, in which case
      the route is queued. */
  predicate Enabled(s: State, e: Event) {
    match e
    case CreateRoute(k, _) => k !in s.routes
    case EditInputs(k, _) => k in s.routes
    case DeleteRoute(k) => k in s.routes
    case Nudge(_) => true
    case Collect(id) =>
      id in s.objects && s.objects[id].owner.Some? && !HeldBy(s, id, s.objects[id].owner.value.route)
    case Drift(id, _) => id in s.objects && id.kind == HttpRouteKind
    case Start(k) => k in s.queued && !InFlight(s, k)
    case LookUp(k, x, _) => k in s.looking && (k !in s.queued ==> k in s.routes && x == s.routes[k].inputs)
    case Call(k, _) => k in s.running
  }

  /** A queued route is taken up; one that is gone is dropped. */
  function Started(s: State, k: Key): State {
    var s' := s.(queued := s.queued - {k});
    if k in s.routes then s'.(looking := s.looking[k := s.routes[k].uid]) else s'
  }

  /** The look-ups are done: nothing to do, an error, or on to the writes. */
  function LookedUp(s: State, k: Key, x: Inputs, r: Reply): State
    requires k in s.looking
  {
    var s' := s.(looking := s.looking - {k});
    if r != Done || x == NoUpstream then s'.(queued := s.queued + {k})
    else if x == NoGateway then s'
    else s'.(running := s.running[k := Job(s.looking[k], x.found, GetBackend)])
  }

  function Apply(s: State, e: Event): State
    requires Enabled(s, e)
  {
    match e
    case CreateRoute(k, x) =>
      s.(routes := s.routes[k := Route(s.next, x)], next := s.next + 1, queued := s.queued + {k})
    case EditInputs(k, x) =>
      s.(routes := s.routes[k := s.routes[k].(inputs := x)], queued := s.queued + {k})
    case DeleteRoute(k) => s.(routes := s.routes - {k}, queued := s.queued + {k})
    case Nudge(k) => s.(queued := s.queued + {k})
    case Collect(id) => WithObject(s, id, None)
    case Drift(id, c) => WithObject(s, id, Some(s.objects[id].(content := c)))
    case Start(k) => Started(s, k)
    case LookUp(k, x, r) => LookedUp(s, k, x, r)
    case Call(k, r) => Advance(s, k, r)
  }

  predicate Init(s: State) {
    && s.objects == map[] && s.looking == map[] && s.running == map[]
    && forall k | k in s.routes :: s.routes[k].uid < s.next && k in s.queued
  }

  predicate StepAt(ss: seq<State>, es: seq<Event>, i: nat)
    requires |ss| == |es| + 1 && i < |es|
  {
    Enabled(ss[i], es[i]) && ss[i + 1] == Apply(ss[i], es[i])
  }

  /** The states of a run and the events between them. */
  predicate Run(ss: seq<State>, es: seq<Event>) {
    |ss| == |es| + 1 && Init(ss[0]) && forall i | 0 <= i < |es| :: StepAt(ss, es, i)
  }

  // ------------------------------------------------------- playing out events

  /** The reconcile of `k` at its writes, as a machine that takes replies. */
  function Writing(k: Key): Machine<State, Reply> {
    Machine((s: State) => k in s.running, (s: State, r: Reply) => if k in s.running then Advance(s, k, r) else s)
  }

  /** The states that the events lead through, as long as they are enabled. */
  function Trace(s: State, es: seq<Event>): (ss: seq<State>)
    ensures ss != [] && ss[0] == s && |ss| <= |es| + 1
    decreases |es|
  {
    if es == [] || !Enabled(s, es[0]) then [s] else [s] + Trace(Apply(s, es[0]), es[1..])
  }

  predicate Feasible(s: State, es: seq<Event>)
    decreases |es|
  {
    es != [] ==> Enabled(s, es[0]) && Feasible(Apply(s, es[0]), es[1..])
  }

  function After(s: State, es: seq<Event>): State
    decreases |es|
  {
    if es == [] || !Enabled(s, es[0]) then s else After(Apply(s, es[0]), es[1..])
  }

  lemma {:induction false} FeasibleTrace(s: State, es: seq<Event>)
    requires Feasible(s, es)
    ensures var ss := Trace(s, es);
            |ss| == |es| + 1 && ss[|es|] == After(s, es) && forall i | 0 <= i < |es| :: StepAt(ss, es, i)
    decreases |es|
  {
    if es != [] {
      var rest := Trace(Apply(s, es[0]), es[1..]);
      FeasibleTrace(Apply(s, es[0]), es[1..]);
      forall i | 0 <= i < |es| ensures StepAt([s] + rest, es, i) {
        if i > 0 { assert StepAt(rest, es[1..], i - 1); }
      }
    }
  }

  lemma {:induction false} FeasibleAppend(s: State, a: seq<Event>, b: seq<Event>)
    requires Feasible(s, a) && Feasible(After(s, a), b)
    ensures Feasible(s, a + b) && After(s, a + b) == After(After(s, a), b)
    decreases |a|
  {
    if a == [] {
      assert a + b == b;
    } else {
      assert (a + b)[1..] == a[1..] + b;
      FeasibleAppend(Apply(s, a[0]), a[1..], b);
    }
  }
}
