/** What can go wrong between ToolRoutes of the same base name when several reconciles are
    in flight at once, as with several workers or two active instances; the operator as
    configured has one worker, where nothing of this happens (RouteOneWorker).  Each case is
    a run from an empty cluster.  The first damage of a run is of one of the first three
    kinds (`RouteOwnership.FirstHarm`); the fourth needs an earlier one. */
module RouteHazards {
  import opened Wrappers
  import opened Objects
  import opened Api
  import opened RouteMachine
  import opened RouteOwnership

  const EMPTY := State(map[], 0, map[], {}, map[], map[])

  // ------------------------------------------------------------ stretches of runs

  /** The events lead from the one state to the other. */
  predicate Leads(s: State, es: seq<Event>, t: State) {
    Feasible(s, es) && After(s, es) == t
  }

  lemma LeadsOn(s: State, a: seq<Event>, t: State, b: seq<Event>, u: State)
    requires Leads(s, a, t) && Leads(t, b, u)
    ensures Leads(s, a + b, u)
  {
    FeasibleAppend(s, a, b);
  }

  lemma LeadsOne(s: State, e: Event)
    requires Enabled(s, e)
    ensures Leads(s, [e], Apply(s, e))
  {
    assert [e][1..] == [];
  }

  lemma LeadsTwo(s: State, d: Event, e: Event)
    requires Enabled(s, d) && Enabled(Apply(s, d), e)
    ensures Leads(s, [d, e], Apply(Apply(s, d), e))
  {
    LeadsOne(s, d);
    LeadsOne(Apply(s, d), e);
    LeadsOn(s, [d], Apply(s, d), [e], Apply(Apply(s, d), e));
    assert [d] + [e] == [d, e];
  }

  /** The events make a run from the empty cluster that ends in `t`. */
  predicate Reaches(es: seq<Event>, t: State) {
    var ss := Trace(EMPTY, es);
    Run(ss, es) && ss[|es|] == t
  }

  lemma LeadsIsRun(es: seq<Event>, t: State)
    requires Leads(EMPTY, es, t)
    ensures Reaches(es, t)
  {
    FeasibleTrace(EMPTY, es);
  }

  /** A queued route is taken up and its look-ups are done. */
  function Begin(k: Key, f: Found): seq<Event> {
    [Start(k), LookUp(k, Resolved(f), Done)]
  }

  function Begun(s: State, k: Key, f: Found): State
    requires k in s.routes
  {
    s.(queued := s.queued - {k}, running := s.running[k := Job(s.routes[k].uid, f, GetBackend)])
  }

  lemma Begins(s: State, k: Key, f: Found)
    requires k in s.routes && k in s.queued && !InFlight(s, k) && s.routes[k].inputs == Resolved(f)
    ensures Leads(s, Begin(k, f), Begun(s, k, f))
  {
    LeadsTwo(s, Start(k), LookUp(k, Resolved(f), Done));
    assert s.looking[k := s.routes[k].uid] - {k} == s.looking;
  }

  /** A route is created and its reconcile begins. */
  function Arrival(k: Key, f: Found): seq<Event> {
    [CreateRoute(k, Resolved(f))] + Begin(k, f)
  }

  function Arrived(s: State, k: Key, f: Found): State {
    s.(routes := s.routes[k := Route(s.next, Resolved(f))], next := s.next + 1, queued := s.queued - {k},
       running := s.running[k := Job(s.next, f, GetBackend)])
  }

  lemma Arrives(s: State, k: Key, f: Found)
    requires k !in s.routes && !InFlight(s, k)
    ensures Leads(s, Arrival(k, f), Arrived(s, k, f))
  {
    var created := Apply(s, CreateRoute(k, Resolved(f)));
    LeadsOne(s, CreateRoute(k, Resolved(f)));
    Begins(created, k, f);
    assert created.queued - {k} == s.queued - {k};
    LeadsOn(s, [CreateRoute(k, Resolved(f))], created, Begin(k, f), Arrived(s, k, f));
  }

  /** Read and write of one object. */
  function ReadWrite(k: Key): seq<Event> {
    [Call(k, Done), Call(k, Done)]
  }

  function At(s: State, k: Key, id: Id, want: Resource, pc: Pc): State
    requires k in s.running
  {
    WithObject(s, id, Some(want)).(running := s.running[k := s.running[k].(pc := pc)])
  }

  function WithBackend(s: State, k: Key): State
    requires k in s.running
  {
    var Job(uid, f, _) := s.running[k];
    At(s, k, BackendId(Base(k, f)), BackendWanted(k, uid, f), GetHttpRoute)
  }

  function WithHttpRoute(s: State, k: Key): State
    requires k in s.running
  {
    var Job(uid, f, _) := s.running[k];
    At(s, k, HttpRouteId(Base(k, f)), HttpRouteWanted(k, uid, f), PolicyPhase(f))
  }

  function WithPolicy(s: State, k: Key): State
    requires k in s.running
  {
    var Job(uid, f, _) := s.running[k];
    At(s, k, PolicyId(Base(k, f)), PolicyWanted(k, uid, f), Succeeded)
  }

  lemma GotoTwice(s: State, k: Key, p: Pc, q: Pc)
    requires k in s.running
    ensures Goto(Goto(s, k, p), k, q) == Goto(s, k, q)
  {
    assert s.running[k := s.running[k].(pc := p)][k := s.running[k].(pc := q)]
        == s.running[k := s.running[k].(pc := q)];
  }

  lemma CreatesBackend(s: State, k: Key)
    requires k in s.running && s.running[k].pc == GetBackend
    requires BackendId(Base(k, s.running[k].found)) !in s.objects
    ensures Leads(s, ReadWrite(k), WithBackend(s, k))
  {
    LeadsTwo(s, Call(k, Done), Call(k, Done));
    GotoTwice(s, k, PutBackend(None), GetHttpRoute);
  }

  lemma CreatesHttpRoute(s: State, k: Key)
    requires k in s.running && s.running[k].pc == GetHttpRoute
    requires HttpRouteId(Base(k, s.running[k].found)) !in s.objects
    ensures Leads(s, ReadWrite(k), WithHttpRoute(s, k))
  {
    LeadsTwo(s, Call(k, Done), Call(k, Done));
    GotoTwice(s, k, PutHttpRoute(None), PolicyPhase(s.running[k].found));
  }

  lemma CreatesPolicy(s: State, k: Key)
    requires k in s.running && s.running[k].pc == GetPolicy
    requires PolicyId(Base(k, s.running[k].found)) !in s.objects
    ensures Leads(s, ReadWrite(k), WithPolicy(s, k))
  {
    LeadsTwo(s, Call(k, Done), Call(k, Done));
    GotoTwice(s, k, PutPolicy(None), Succeeded);
  }

  /** Two routes that come to the same base name. */
  predicate Collide(a: Key, fa: Found, b: Key, fb: Found) {
    a != b && Base(a, fa) == Base(b, fb)
  }

  // -------------------------------------------- 1. a policy deleted by its name

  /** Up to the by-name delete of its policy. */
  function UpToDelete(k: Key, f: Found): seq<Event> {
    Arrival(k, f) + ReadWrite(k) + ReadWrite(k)
  }

  function HasTwo(s: State, k: Key, f: Found): State {
    WithHttpRoute(WithBackend(Arrived(s, k, f), k), k)
  }

  lemma ReachesPolicy(s: State, k: Key, f: Found)
    requires k !in s.routes && !InFlight(s, k)
    requires BackendId(Base(k, f)) !in s.objects && HttpRouteId(Base(k, f)) !in s.objects
    ensures Leads(s, UpToDelete(k, f), HasTwo(s, k, f))
  {
    var s1 := Arrived(s, k, f);
    var s2 := WithBackend(s1, k);
    Arrives(s, k, f);
    CreatesBackend(s1, k);
    CreatesHttpRoute(s2, k);
    LeadsOn(s, Arrival(k, f), s1, ReadWrite(k), s2);
    LeadsOn(s, Arrival(k, f) + ReadWrite(k), s2, ReadWrite(k), WithHttpRoute(s2, k));
  }

  /** The route is deleted and its backend and HTTPRoute are collected. */
  function Departure(k: Key, f: Found): seq<Event> {
    [DeleteRoute(k)] + [Collect(BackendId(Base(k, f))), Collect(HttpRouteId(Base(k, f)))]
  }

  function Departed(s: State, k: Key, f: Found): State {
    s.(routes := s.routes - {k}, queued := s.queued + {k},
       objects := s.objects - {BackendId(Base(k, f))} - {HttpRouteId(Base(k, f))})
  }

  lemma Departs(s: State, k: Key, f: Found)
    requires HeldBy(s, BackendId(Base(k, f)), k) && HeldBy(s, HttpRouteId(Base(k, f)), k)
    ensures Leads(s, Departure(k, f), Departed(s, k, f))
  {
    var gone := Apply(s, DeleteRoute(k));
    LeadsOne(s, DeleteRoute(k));
    LeadsTwo(gone, Collect(BackendId(Base(k, f))), Collect(HttpRouteId(Base(k, f))));
    LeadsOn(s, [DeleteRoute(k)], gone,
            [Collect(BackendId(Base(k, f))), Collect(HttpRouteId(Base(k, f)))], Departed(s, k, f));
  }

  function DeletedInFlight(a: Key, fa: Found, b: Key, fb: Found): seq<Event> {
    UpToDelete(a, fa) + Departure(a, fa) + UpToDelete(b, fb) + ReadWrite(b)
  }

  function Overtaken(a: Key, fa: Found, b: Key, fb: Found): State {
    WithPolicy(HasTwo(Departed(HasTwo(EMPTY, a, fa), a, fa), b, fb), b)
  }

  lemma DeletedInFlightLeads(a: Key, fa: Found, b: Key, fb: Found)
    requires Collide(a, fa, b, fb) && RulesOf(fa) == [] && RulesOf(fb) != []
    ensures Leads(EMPTY, DeletedInFlight(a, fa, b, fb), Overtaken(a, fa, b, fb))
  {
    var s1 := HasTwo(EMPTY, a, fa);
    var s2 := Departed(s1, a, fa);
    var s3 := HasTwo(s2, b, fb);
    ReachesPolicy(EMPTY, a, fa);
    Departs(s1, a, fa);
    LeadsOn(EMPTY, UpToDelete(a, fa), s1, Departure(a, fa), s2);
    ReachesPolicy(s2, b, fb);
    LeadsOn(EMPTY, UpToDelete(a, fa) + Departure(a, fa), s2, UpToDelete(b, fb), s3);
    CreatesPolicy(s3, b);
    LeadsOn(EMPTY, UpToDelete(a, fa) + Departure(a, fa) + UpToDelete(b, fb), s3, ReadWrite(b), WithPolicy(s3, b));
  }

  /** Route a has no filter and is about to delete the policy by name.  It is deleted,
      its objects are collected, and b, of the same base name, makes its own.  The old
      reconcile of a then deletes b's policy. */
  lemma InFlightDeletionUnsafe(a: Key, fa: Found, b: Key, fb: Found)
    requires Collide(a, fa, b, fb) && RulesOf(fa) == [] && RulesOf(fb) != []
    ensures var s := Overtaken(a, fa, b, fb);
            && Reaches(DeletedInFlight(a, fa, b, fb), s)
            && a in s.running && !Alive(s, a) && HeldBy(s, PolicyId(Base(b, fb)), b)
            && PolicyId(Base(b, fb)) !in Advance(s, a, Done).objects
  {
    DeletedInFlightLeads(a, fa, b, fb);
    LeadsIsRun(DeletedInFlight(a, fa, b, fb), Overtaken(a, fa, b, fb));
    OvertakenState(a, fa, b, fb);
    DeletesByName(Overtaken(a, fa, b, fb), a);
  }

  lemma DeletesByName(s: State, k: Key)
    requires k in s.running && s.running[k].pc == DeletePolicy
    ensures PolicyId(Base(k, s.running[k].found)) !in Advance(s, k, Done).objects
  {
  }

  lemma OvertakenState(a: Key, fa: Found, b: Key, fb: Found)
    requires Collide(a, fa, b, fb) && RulesOf(fa) == []
    ensures var s := Overtaken(a, fa, b, fb);
            && a in s.running && a !in s.routes && s.running[a] == Job(0, fa, DeletePolicy)
            && HeldBy(s, PolicyId(Base(b, fb)), b)
  {
    var s1 := HasTwo(EMPTY, a, fa);
    assert s1.running[a] == Job(0, fa, DeletePolicy);
    assert Departed(s1, a, fa).running == s1.running;
  }

  // ---------------------------------------------- 2. a patch from an old read

  /** A reconcile makes the backend and fails at the HTTPRoute. */
  function HalfDone(k: Key, f: Found): seq<Event> {
    Arrival(k, f) + ReadWrite(k) + [Call(k, Refused)]
  }

  function HasBackend(k: Key, f: Found): State {
    EMPTY.(routes := map[k := Route(0, Resolved(f))], next := 1, queued := {k},
           objects := map[BackendId(Base(k, f)) := BackendWanted(k, 0, f)])
  }

  lemma MakesBackend(k: Key, f: Found)
    ensures Leads(EMPTY, HalfDone(k, f), HasBackend(k, f))
  {
    var s1 := Arrived(EMPTY, k, f);
    var s2 := WithBackend(s1, k);
    Arrives(EMPTY, k, f);
    CreatesBackend(s1, k);
    LeadsOn(EMPTY, Arrival(k, f), s1, ReadWrite(k), s2);
    LeadsOne(s2, Call(k, Refused));
    LeadsOn(EMPTY, Arrival(k, f) + ReadWrite(k), s2, [Call(k, Refused)], GiveUp(s2, k));
    assert GiveUp(s2, k) == HasBackend(k, f);
  }

  /** Another route comes and makes the backend. */
  lemma OtherTakesBackend(es: seq<Event>, s: State, k: Key, f: Found)
    requires Leads(EMPTY, es, s) && k !in s.routes && !InFlight(s, k) && BackendId(Base(k, f)) !in s.objects
    ensures Leads(EMPTY, es + Arrival(k, f) + ReadWrite(k), WithBackend(Arrived(s, k, f), k))
  {
    Arrives(s, k, f);
    LeadsOn(EMPTY, es, s, Arrival(k, f), Arrived(s, k, f));
    CreatesBackend(Arrived(s, k, f), k);
    LeadsOn(EMPTY, es + Arrival(k, f), Arrived(s, k, f), ReadWrite(k), WithBackend(Arrived(s, k, f), k));
  }

  /** The upstream of the route is edited, and a reconcile reads the backend; then the
      route is deleted and the backend collected. */
  function EditedAndDeleted(k: Key, f: Found, g: Found): seq<Event> {
    HalfDone(k, f) + [EditInputs(k, Resolved(g))] + Begin(k, g)
    + [Call(k, Done), DeleteRoute(k)] + [Collect(BackendId(Base(k, f)))]
  }

  function Orphaned(k: Key, f: Found, g: Found): State {
    State(map[], 1, map[], {k}, map[], map[k := Job(0, g, PutBackend(Some(BackendWanted(k, 0, f))))])
  }

  lemma BecomesOrphan(k: Key, f: Found, g: Found)
    requires Base(k, f) == Base(k, g)
    ensures Leads(EMPTY, EditedAndDeleted(k, f, g), Orphaned(k, f, g))
  {
    var s1 := HasBackend(k, f);
    var edited := s1.(routes := map[k := Route(0, Resolved(g))]);
    var s2 := edited.(queued := {}, running := map[k := Job(0, g, GetBackend)]);
    var s3 := Orphaned(k, f, g).(objects := s1.objects);
    MakesBackend(k, f);
    LeadsOne(s1, EditInputs(k, Resolved(g)));
    assert s1.queued + {k} == {k};
    LeadsOn(EMPTY, HalfDone(k, f), s1, [EditInputs(k, Resolved(g))], edited);
    Begins(edited, k, g);
    assert edited.queued - {k} == {};
    LeadsOn(EMPTY, HalfDone(k, f) + [EditInputs(k, Resolved(g))], edited, Begin(k, g), s2);
    ReadsAndDies(s2, k, s3);
    LeadsOn(EMPTY, HalfDone(k, f) + [EditInputs(k, Resolved(g))] + Begin(k, g), s2,
            [Call(k, Done), DeleteRoute(k)], s3);
    LeadsOne(s3, Collect(BackendId(Base(k, f))));
    LeadsOn(EMPTY, HalfDone(k, f) + [EditInputs(k, Resolved(g))] + Begin(k, g) + [Call(k, Done), DeleteRoute(k)], s3,
            [Collect(BackendId(Base(k, f)))], Orphaned(k, f, g));
  }

  lemma ReadsAndDies(s: State, k: Key, t: State)
    requires k in s.routes && k in s.running && s.running[k].pc == GetBackend
    requires t == Goto(s, k, PutBackend(Get(s.objects, BackendId(Base(k, s.running[k].found))))).(
                    routes := s.routes - {k}, queued := s.queued + {k})
    ensures Leads(s, [Call(k, Done), DeleteRoute(k)], t)
  {
    LeadsTwo(s, Call(k, Done), DeleteRoute(k));
  }

  /** The second way: the orphaned reconcile patches the backend, which b has made anew
      in the meantime.  The owner was not to change and is not sent, so b controls a
      backend that points at a's new target. */
  lemma StalePatchUnsafe(a: Key, f: Found, g: Found, b: Key, fb: Found)
    requires Collide(a, f, b, fb) && Base(a, f) == Base(a, g) && f.target != g.target && fb.target != g.target
    ensures var s := WithBackend(Arrived(Orphaned(a, f, g), b, fb), b);
            var id := BackendId(Base(b, fb));
            && Reaches(EditedAndDeleted(a, f, g) + Arrival(b, fb) + ReadWrite(b), s)
            && a in s.running && !Alive(s, a)
            && HeldBy(s, id, b) && s.objects[id].content == Target(fb.target)
            && var s' := Advance(s, a, Done); HeldBy(s', id, b) && s'.objects[id].content == Target(g.target)
  {
    var s := WithBackend(Arrived(Orphaned(a, f, g), b, fb), b);
    BecomesOrphan(a, f, g);
    OtherTakesBackend(EditedAndDeleted(a, f, g), Orphaned(a, f, g), b, fb);
    LeadsIsRun(EditedAndDeleted(a, f, g) + Arrival(b, fb) + ReadWrite(b), s);
    assert s.running[a] == Orphaned(a, f, g).running[a];
  }

  // ------------------------------------------- 3. a leftover backend adopted

  /** The route is deleted and created again, its reconcile reads the backend left over
      from before, and then that is collected. */
  function Recreated(k: Key, f: Found): seq<Event> {
    HalfDone(k, f) + [DeleteRoute(k)] + Arrival(k, f) + [Call(k, Done), Collect(BackendId(Base(k, f)))]
  }

  function Adopting(k: Key, f: Found): State {
    State(map[k := Route(1, Resolved(f))], 2, map[], {}, map[],
          map[k := Job(1, f, PutBackend(Some(BackendWanted(k, 0, f))))])
  }

  lemma BecomesAdopter(k: Key, f: Found)
    ensures Leads(EMPTY, Recreated(k, f), Adopting(k, f))
  {
    var s1 := HasBackend(k, f);
    var s2 := s1.(routes := map[]);
    var s3 := Adopting(k, f).(objects := s1.objects, running := map[k := Job(1, f, GetBackend)]);
    MakesBackend(k, f);
    LeadsOne(s1, DeleteRoute(k));
    assert s1.routes - {k} == map[];
    LeadsOn(EMPTY, HalfDone(k, f), s1, [DeleteRoute(k)], s2);
    Arrives(s2, k, f);
    assert s2.queued - {k} == {};
    LeadsOn(EMPTY, HalfDone(k, f) + [DeleteRoute(k)], s2, Arrival(k, f), s3);
    LeadsTwo(s3, Call(k, Done), Collect(BackendId(Base(k, f))));
    LeadsOn(EMPTY, HalfDone(k, f) + [DeleteRoute(k)] + Arrival(k, f), s3,
            [Call(k, Done), Collect(BackendId(Base(k, f)))], Adopting(k, f));
  }

  /** The third way, and the only first one open to a route that exists: b has made the
      backend anew, and a takes it over.  Only the owner differed from what a had read, so a ends
      up with a backend that points at b's target, and believes it is as wanted. */
  lemma AdoptionUnsafe(a: Key, fa: Found, b: Key, fb: Found)
    requires Collide(a, fa, b, fb)
    ensures var s := WithBackend(Arrived(Adopting(a, fa), b, fb), b);
            var id := BackendId(Base(b, fb));
            && Reaches(Recreated(a, fa) + Arrival(b, fb) + ReadWrite(b), s)
            && Alive(s, a) && HeldBy(s, id, b) && Steals(s, a, Done)
            && var s' := Advance(s, a, Done); HeldBy(s', id, a) && s'.objects[id].content == Target(fb.target)
  {
    var s := WithBackend(Arrived(Adopting(a, fa), b, fb), b);
    BecomesAdopter(a, fa);
    OtherTakesBackend(Recreated(a, fa), Adopting(a, fa), b, fb);
    LeadsIsRun(Recreated(a, fa) + Arrival(b, fb) + ReadWrite(b), s);
    assert s.running[a] == Adopting(a, fa).running[a];
  }

  // ------------------------------------- 4. after that, even without taking over

  /** A call that takes over what an earlier route of this name had left as wanted: only the
      owner is sent. */
  function Taken(s: State, k: Key, id: Id, pc: Pc): State
    requires k in s.running && id in s.objects
  {
    Goto(WithObject(s, id, Some(Resource(Self(k, s.running[k]), s.objects[id].content))), k, pc)
  }

  lemma TakesBackend(s: State, k: Key, former: nat)
    requires k in s.running && former != s.running[k].uid && BackendId(Base(k, s.running[k].found)) in s.objects
    requires s.running[k].pc == PutBackend(Some(BackendWanted(k, former, s.running[k].found)))
    ensures Leads(s, [Call(k, Done)], Taken(s, k, BackendId(Base(k, s.running[k].found)), GetHttpRoute))
  {
    LeadsOne(s, Call(k, Done));
  }

  lemma TakesHttpRoute(s: State, k: Key, former: nat)
    requires k in s.running && former != s.running[k].uid && HttpRouteId(Base(k, s.running[k].found)) in s.objects
    requires s.running[k].pc == PutHttpRoute(Some(HttpRouteWanted(k, former, s.running[k].found)))
    ensures Leads(s, [Call(k, Done)],
                  Taken(s, k, HttpRouteId(Base(k, s.running[k].found)), PolicyPhase(s.running[k].found)))
  {
    LeadsOne(s, Call(k, Done));
  }

  /** a makes backend and HTTPRoute, is deleted and created again, and reads the backend it
      had left, which is then collected. */
  function BothLeft(k: Key, f: Found): seq<Event> {
    UpToDelete(k, f) + [Call(k, Refused), DeleteRoute(k)] + Arrival(k, f)
    + [Call(k, Done), Collect(BackendId(Base(k, f)))]
  }

  function HttpRouteLeft(k: Key, f: Found): State {
    State(map[k := Route(1, Resolved(f))], 2, map[HttpRouteId(Base(k, f)) := HttpRouteWanted(k, 0, f)], {}, map[],
          map[k := Job(1, f, PutBackend(Some(BackendWanted(k, 0, f))))])
  }

  /** The route is created again, and its reconcile begins. */
  function Again(k: Key, f: Found): State {
    HttpRouteLeft(k, f).(running := map[k := Job(1, f, GetBackend)],
                         objects := map[BackendId(Base(k, f)) := BackendWanted(k, 0, f),
                                        HttpRouteId(Base(k, f)) := HttpRouteWanted(k, 0, f)])
  }

  lemma AgainLeads(k: Key, f: Found)
    requires RulesOf(f) != []
    ensures Leads(EMPTY, UpToDelete(k, f) + [Call(k, Refused), DeleteRoute(k)] + Arrival(k, f), Again(k, f))
  {
    var s1 := HasTwo(EMPTY, k, f);
    var s2 := Apply(GiveUp(s1, k), DeleteRoute(k));
    ReachesPolicy(EMPTY, k, f);
    LeadsTwo(s1, Call(k, Refused), DeleteRoute(k));
    LeadsOn(EMPTY, UpToDelete(k, f), s1, [Call(k, Refused), DeleteRoute(k)], s2);
    TwoThere(k, f);
    Arrives(s2, k, f);
    assert s2.queued - {k} == {};
    LeadsOn(EMPTY, UpToDelete(k, f) + [Call(k, Refused), DeleteRoute(k)], s2, Arrival(k, f), Again(k, f));
  }

  lemma BothLeftLeads(k: Key, f: Found)
    requires RulesOf(f) != []
    ensures Leads(EMPTY, BothLeft(k, f), HttpRouteLeft(k, f))
  {
    AgainLeads(k, f);
    LosesBackend(k, f);
    LeadsOn(EMPTY, UpToDelete(k, f) + [Call(k, Refused), DeleteRoute(k)] + Arrival(k, f), Again(k, f),
            [Call(k, Done), Collect(BackendId(Base(k, f)))], HttpRouteLeft(k, f));
  }

  lemma LosesBackend(k: Key, f: Found)
    ensures Leads(Again(k, f), [Call(k, Done), Collect(BackendId(Base(k, f)))], HttpRouteLeft(k, f))
  {
    var s := Again(k, f);
    LeadsTwo(s, Call(k, Done), Collect(BackendId(Base(k, f))));
    assert s.objects - {BackendId(Base(k, f))} == HttpRouteLeft(k, f).objects;
  }

  lemma TwoThere(k: Key, f: Found)
    ensures var s := Apply(GiveUp(HasTwo(EMPTY, k, f), k), DeleteRoute(k));
            && s.routes == map[] && s.next == 1 && s.queued == {k} && s.looking == map[] && s.running == map[]
            && s.objects == map[BackendId(Base(k, f)) := BackendWanted(k, 0, f),
                                HttpRouteId(Base(k, f)) := HttpRouteWanted(k, 0, f)]
  {
    var s := HasTwo(EMPTY, k, f);
    assert s.queued + {k} + {k} == {k};
    assert s.routes - {k} == map[] && s.running - {k} == map[];
  }

  /** Then b makes the backend and a takes it over; a reads the HTTPRoute it had left, which
      is collected, b makes that too, and a takes it over. */
  function BackendGone(a: Key, fa: Found, b: Key, fb: Found): State
    requires Collide(a, fa, b, fb)
  {
    Taken(WithBackend(Arrived(HttpRouteLeft(a, fa), b, fb), b), a, BackendId(Base(a, fa)), GetHttpRoute)
  }

  function Reading(a: Key, fa: Found, b: Key, fb: Found): State
    requires Collide(a, fa, b, fb)
  {
    var s := Goto(BackendGone(a, fa, b, fb), a, PutHttpRoute(Some(HttpRouteWanted(a, 0, fa))));
    WithObject(s, HttpRouteId(Base(a, fa)), None)
  }

  function BothGone(a: Key, fa: Found, b: Key, fb: Found): State
    requires Collide(a, fa, b, fb)
  {
    Taken(WithHttpRoute(Reading(a, fa, b, fb), b), a, HttpRouteId(Base(a, fa)), GetPolicy)
  }

  function ToBackendGone(a: Key, fa: Found, b: Key, fb: Found): seq<Event> {
    BothLeft(a, fa) + Arrival(b, fb) + ReadWrite(b) + [Call(a, Done)]
  }

  function ToBothGone(a: Key, fa: Found, b: Key, fb: Found): seq<Event> {
    ToReading(a, fa, b, fb) + ReadWrite(b) + [Call(a, Done)]
  }

  lemma BackendGoneLeads(a: Key, fa: Found, b: Key, fb: Found)
    requires Collide(a, fa, b, fb) && RulesOf(fa) != []
    ensures Leads(EMPTY, ToBackendGone(a, fa, b, fb), BackendGone(a, fa, b, fb))
  {
    var s := HttpRouteLeft(a, fa);
    BothLeftLeads(a, fa);
    OtherTakesBackend(BothLeft(a, fa), s, b, fb);
    var t := WithBackend(Arrived(s, b, fb), b);
    assert t.running[a] == s.running[a];
    TakesBackend(t, a, 0);
    LeadsOn(EMPTY, BothLeft(a, fa) + Arrival(b, fb) + ReadWrite(b), t, [Call(a, Done)], BackendGone(a, fa, b, fb));
  }

  lemma BackendGoneState(a: Key, fa: Found, b: Key, fb: Found)
    requires Collide(a, fa, b, fb)
    ensures var s := BackendGone(a, fa, b, fb);
            && s.routes == map[a := Route(1, Resolved(fa)), b := Route(2, Resolved(fb))] && s.looking == map[]
            && s.running == map[a := Job(1, fa, GetHttpRoute), b := Job(2, fb, GetHttpRoute)]
            && Get(s.objects, HttpRouteId(Base(a, fa))) == Some(HttpRouteWanted(a, 0, fa))
            && PolicyId(Base(a, fa)) !in s.objects
  {
    var s := WithBackend(Arrived(HttpRouteLeft(a, fa), b, fb), b);
    assert s.running == map[a := HttpRouteLeft(a, fa).running[a], b := Job(2, fb, GetHttpRoute)];
    assert s.objects == map[HttpRouteId(Base(a, fa)) := HttpRouteWanted(a, 0, fa),
                            BackendId(Base(b, fb)) := BackendWanted(b, 2, fb)];
  }

  function ToReading(a: Key, fa: Found, b: Key, fb: Found): seq<Event> {
    ToBackendGone(a, fa, b, fb) + [Call(a, Done), Collect(HttpRouteId(Base(a, fa)))]
  }

  lemma ReadingLeads(a: Key, fa: Found, b: Key, fb: Found)
    requires Collide(a, fa, b, fb) && RulesOf(fa) != []
    ensures Leads(EMPTY, ToReading(a, fa, b, fb), Reading(a, fa, b, fb))
  {
    var s := BackendGone(a, fa, b, fb);
    BackendGoneLeads(a, fa, b, fb);
    BackendGoneState(a, fa, b, fb);
    LosesHttpRoute(s, a, 0);
    LeadsOn(EMPTY, ToBackendGone(a, fa, b, fb), s,
            [Call(a, Done), Collect(HttpRouteId(Base(a, fa)))], Reading(a, fa, b, fb));
  }

  lemma ReadingState(a: Key, fa: Found, b: Key, fb: Found)
    requires Collide(a, fa, b, fb)
    ensures var s := Reading(a, fa, b, fb);
            && s.routes == map[a := Route(1, Resolved(fa)), b := Route(2, Resolved(fb))] && s.looking == map[]
            && s.running == map[a := Job(1, fa, PutHttpRoute(Some(HttpRouteWanted(a, 0, fa)))),
                                b := Job(2, fb, GetHttpRoute)]
            && HttpRouteId(Base(a, fa)) !in s.objects && PolicyId(Base(a, fa)) !in s.objects
  {
    BackendGoneState(a, fa, b, fb);
    ReadAndLost(BackendGone(a, fa, b, fb), a, fa, b, fb);
  }

  lemma ReadAndLost(s: State, a: Key, fa: Found, b: Key, fb: Found)
    requires a != b && s.running == map[a := Job(1, fa, GetHttpRoute), b := Job(2, fb, GetHttpRoute)]
    ensures var id := HttpRouteId(Base(a, fa));
            var pc := PutHttpRoute(Some(HttpRouteWanted(a, 0, fa)));
            var t := WithObject(Goto(s, a, pc), id, None);
            && t.routes == s.routes && t.looking == s.looking && t.objects == s.objects - {id}
            && t.running == map[a := Job(1, fa, pc), b := Job(2, fb, GetHttpRoute)]
  {
  }

  /** The HTTPRoute left by an earlier route of this name is read and then collected. */
  lemma LosesHttpRoute(s: State, k: Key, former: nat)
    requires k in s.running && s.running[k].pc == GetHttpRoute && k in s.routes && former != s.routes[k].uid
    requires var f := s.running[k].found;
             Get(s.objects, HttpRouteId(Base(k, f))) == Some(HttpRouteWanted(k, former, f))
    ensures var f := s.running[k].found;
            Leads(s, [Call(k, Done), Collect(HttpRouteId(Base(k, f)))],
                  WithObject(Goto(s, k, PutHttpRoute(Some(HttpRouteWanted(k, former, f)))),
                             HttpRouteId(Base(k, f)), None))
  {
    LeadsTwo(s, Call(k, Done), Collect(HttpRouteId(Base(k, s.running[k].found))));
  }

  lemma BothGoneLeads(a: Key, fa: Found, b: Key, fb: Found)
    requires Collide(a, fa, b, fb) && RulesOf(fa) != []
    ensures Leads(EMPTY, ToBothGone(a, fa, b, fb), BothGone(a, fa, b, fb))
  {
    var s := Reading(a, fa, b, fb);
    var t := WithHttpRoute(s, b);
    ReadingLeads(a, fa, b, fb);
    ReadingState(a, fa, b, fb);
    CreatesHttpRoute(s, b);
    LeadsOn(EMPTY, ToReading(a, fa, b, fb), s, ReadWrite(b), t);
    assert t.running[a] == s.running[a];
    TakesHttpRoute(t, a, 0);
    LeadsOn(EMPTY, ToReading(a, fa, b, fb) + ReadWrite(b), t, [Call(a, Done)], BothGone(a, fa, b, fb));
  }

  lemma BothGoneState(a: Key, fa: Found, b: Key, fb: Found)
    requires Collide(a, fa, b, fb) && RulesOf(fa) != []
    ensures var s := BothGone(a, fa, b, fb);
            && s.routes == map[a := Route(1, Resolved(fa)), b := Route(2, Resolved(fb))] && s.looking == map[]
            && s.running == map[a := Job(1, fa, GetPolicy), b := Job(2, fb, PolicyPhase(fb))]
            && PolicyId(Base(a, fa)) !in s.objects
  {
    ReadingState(a, fa, b, fb);
    MadeAndTaken(Reading(a, fa, b, fb), a, fa, b, fb);
  }

  /** b makes the HTTPRoute and a takes it over. */
  lemma MadeAndTaken(s: State, a: Key, fa: Found, b: Key, fb: Found)
    requires Collide(a, fa, b, fb) && RulesOf(fa) != []
    requires s.running == map[a := Job(1, fa, PutHttpRoute(Some(HttpRouteWanted(a, 0, fa)))),
                              b := Job(2, fb, GetHttpRoute)]
    requires PolicyId(Base(a, fa)) !in s.objects
    ensures var t := Taken(WithHttpRoute(s, b), a, HttpRouteId(Base(a, fa)), GetPolicy);
            && t.routes == s.routes && t.looking == s.looking && PolicyId(Base(a, fa)) !in t.objects
            && t.running == map[a := Job(1, fa, GetPolicy), b := Job(2, fb, PolicyPhase(fb))]
  {
  }

  /** The fourth way needs two take-overs before: backend and HTTPRoute of b are a's by now,
      and a has made its policy.  The reconcile of b, which exists, knows nothing of this and
      deletes a's policy by name; it takes nothing over itself. */
  lemma DeletionAfterTheftUnsafe(a: Key, fa: Found, b: Key, fb: Found)
    requires Collide(a, fa, b, fb) && RulesOf(fa) != [] && RulesOf(fb) == []
    ensures var s := WithPolicy(BothGone(a, fa, b, fb), a);
            && Reaches(ToBothGone(a, fa, b, fb) + ReadWrite(a), s)
            && Alive(s, b) && !Steals(s, b, Done) && HeldBy(s, PolicyId(Base(b, fb)), a)
            && PolicyId(Base(b, fb)) !in Advance(s, b, Done).objects
  {
    var t := BothGone(a, fa, b, fb);
    var s := WithPolicy(t, a);
    BothGoneLeads(a, fa, b, fb);
    BothGoneState(a, fa, b, fb);
    CreatesPolicy(t, a);
    LeadsOn(EMPTY, ToBothGone(a, fa, b, fb), t, ReadWrite(a), s);
    LeadsIsRun(ToBothGone(a, fa, b, fb) + ReadWrite(a), s);
    PolicyMade(t, a, fa, b, fb);
    DeletesByName(s, b);
  }

  lemma PolicyMade(s: State, a: Key, fa: Found, b: Key, fb: Found)
    requires a != b && s.routes == map[a := Route(1, Resolved(fa)), b := Route(2, Resolved(fb))]
    requires s.running == map[a := Job(1, fa, GetPolicy), b := Job(2, fb, DeletePolicy)]
    ensures var t := WithPolicy(s, a);
            && t.running[b] == Job(2, fb, DeletePolicy) && Alive(t, b) && !Steals(t, b, Done)
            && HeldBy(t, PolicyId(Base(a, fa)), a)
  {
  }

  // --------------------------------------------------- not a hazard: a leftover

  /** A route succeeds, is deleted, loses backend and HTTPRoute to the collector, and is
      created again; its policy is still there when b comes to delete it by name.  Here only
      one reconcile is in flight at a time. */
  function PolicyLeft(a: Key, fa: Found, b: Key, fb: Found): seq<Event> {
    UpToDelete(a, fa) + ReadWrite(a) + [Call(a, Done)] + Departure(a, fa)
    + [CreateRoute(a, Resolved(fa))] + UpToDelete(b, fb)
  }

  function Finished(k: Key, f: Found): State {
    var s := WithPolicy(HasTwo(EMPTY, k, f), k);
    s.(running := s.running - {k})
  }

  lemma Finishes(k: Key, f: Found)
    requires RulesOf(f) != []
    ensures Leads(EMPTY, UpToDelete(k, f) + ReadWrite(k) + [Call(k, Done)], Finished(k, f))
  {
    var s1 := HasTwo(EMPTY, k, f);
    var s2 := WithPolicy(s1, k);
    ReachesPolicy(EMPTY, k, f);
    CreatesPolicy(s1, k);
    LeadsOn(EMPTY, UpToDelete(k, f), s1, ReadWrite(k), s2);
    LeadsOne(s2, Call(k, Done));
    LeadsOn(EMPTY, UpToDelete(k, f) + ReadWrite(k), s2, [Call(k, Done)], Finished(k, f));
  }

  function Returned(a: Key, fa: Found): State {
    Apply(Departed(Finished(a, fa), a, fa), CreateRoute(a, Resolved(fa)))
  }

  lemma PolicyLeftLeads(a: Key, fa: Found, b: Key, fb: Found)
    requires Collide(a, fa, b, fb) && RulesOf(fa) != [] && RulesOf(fb) == []
    ensures Leads(EMPTY, PolicyLeft(a, fa, b, fb), HasTwo(Returned(a, fa), b, fb))
  {
    var done := UpToDelete(a, fa) + ReadWrite(a) + [Call(a, Done)];
    Finishes(a, fa);
    Departs(Finished(a, fa), a, fa);
    LeadsOn(EMPTY, done, Finished(a, fa), Departure(a, fa), Departed(Finished(a, fa), a, fa));
    LeadsOne(Departed(Finished(a, fa), a, fa), CreateRoute(a, Resolved(fa)));
    LeadsOn(EMPTY, done + Departure(a, fa), Departed(Finished(a, fa), a, fa),
            [CreateRoute(a, Resolved(fa))], Returned(a, fa));
    ReachesPolicy(Returned(a, fa), b, fb);
    LeadsOn(EMPTY, done + Departure(a, fa) + [CreateRoute(a, Resolved(fa))], Returned(a, fa),
            UpToDelete(b, fb), HasTwo(Returned(a, fa), b, fb));
  }

  /** The policy names a, and a exists, and b deletes it.  But it is the policy of the
      earlier a, which the collector is free to remove, and the new a has made nothing. */
  lemma LeftoverIsNotHeld(a: Key, fa: Found, b: Key, fb: Found)
    requires Collide(a, fa, b, fb) && RulesOf(fa) != [] && RulesOf(fb) == []
    ensures var s := HasTwo(Returned(a, fa), b, fb);
            var id := PolicyId(Base(b, fb));
            && Reaches(PolicyLeft(a, fa, b, fb), s)
            && Alive(s, b) && a in s.routes
            && id in s.objects && s.objects[id].owner.Some? && s.objects[id].owner.value.route == a
            && id !in Advance(s, b, Done).objects
            && Enabled(s, Collect(id)) && forall any :: !HeldBy(s, any, a)
  {
    PolicyLeftLeads(a, fa, b, fb);
    LeadsIsRun(PolicyLeft(a, fa, b, fb), HasTwo(Returned(a, fa), b, fb));
    LeftoverState(a, fa, b, fb);
    DeletesByName(HasTwo(Returned(a, fa), b, fb), b);
  }

  lemma LeftoverState(a: Key, fa: Found, b: Key, fb: Found)
    requires Collide(a, fa, b, fb) && RulesOf(fb) == []
    ensures var s := HasTwo(Returned(a, fa), b, fb);
            var id := PolicyId(Base(b, fb));
            && Alive(s, b) && a in s.routes && s.running[b].pc == DeletePolicy && s.running[b].found == fb
            && id in s.objects && s.objects[id].owner == Some(ControllerRef(a, 0))
            && Enabled(s, Collect(id)) && forall any :: !HeldBy(s, any, a)
  {
    ReturnedState(a, fa);
    ReturnedStateKept(Returned(a, fa), a, b, fb);
    assert Get(Returned(a, fa).objects, PolicyId(Base(b, fb))) == Some(PolicyWanted(a, 0, fa));
  }

  /** The new a, with a new UID, and the policy of the old one. */
  lemma ReturnedState(a: Key, fa: Found)
    ensures var s := Returned(a, fa);
            && s.routes == map[a := Route(1, Resolved(fa))] && s.next == 2 && s.running == map[]
            && s.objects == map[PolicyId(Base(a, fa)) := PolicyWanted(a, 0, fa)]
  {
    var s := Finished(a, fa);
    var b, h, p := BackendId(Base(a, fa)), HttpRouteId(Base(a, fa)), PolicyId(Base(a, fa));
    assert s.objects == map[b := BackendWanted(a, 0, fa), h := HttpRouteWanted(a, 0, fa), p := PolicyWanted(a, 0, fa)];
  }

  lemma ReturnedStateKept(s: State, a: Key, b: Key, f: Found)
    requires a in s.routes && b !in s.routes && b !in s.running && a != b && s.routes[a].uid != s.next
    requires forall id :: !HeldBy(s, id, a)
    ensures var t := HasTwo(s, b, f);
            && Alive(t, b) && t.running[b] == Job(s.next, f, PolicyPhase(f)) && t.routes[a] == s.routes[a]
            && (forall id :: !HeldBy(t, id, a))
            && forall id: Id | id.kind == PolicyKind :: Get(t.objects, id) == Get(s.objects, id)
  {
    var t := HasTwo(s, b, f);
    var j := Job(s.next, f, GetBackend);
    assert t.objects == s.objects[BackendId(Base(b, f)) := BackendWanted(b, j.uid, f)]
                                 [HttpRouteId(Base(b, f)) := HttpRouteWanted(b, j.uid, f)];
    forall id ensures !HeldBy(t, id, a) {
      assert !HeldBy(s, id, a);
      assert id.kind == PolicyKind ==> Get(t.objects, id) == Get(s.objects, id);
    }
  }
}
