/** What a ToolRoute has to show for it: at success, and whenever it is idle and not
    queued, its three objects are exactly those its look-ups call for, unless somebody
    else has interfered with them; and in which runs nobody does. */
module RouteCompletion {
  import opened Wrappers
  import opened Objects
  import opened Api
  import opened RouteMachine
  import opened RouteOwnership

  // ------------------------------------------------------------- the invariant

  /** The objects of the route are there as wanted; the policy carries exactly the rule
      of the filter, and there is none if the filter yields no rule. */
  predicate AsWanted(s: State, k: Key, uid: nat, f: Found) {
    && Secure(s, k, uid, f)
    && Get(s.objects, PolicyId(Base(k, f))) == if RulesOf(f) == [] then None else Some(PolicyWanted(k, uid, f))
  }

  predicate Secure(s: State, k: Key, uid: nat, f: Found) {
    && Get(s.objects, BackendId(Base(k, f))) == Some(BackendWanted(k, uid, f))
    && Get(s.objects, HttpRouteId(Base(k, f))) == Some(HttpRouteWanted(k, uid, f))
  }

  predicate Adoptable(k: Key, read: Option<Resource>) {
    read.Some? && MayControl(k, read.value)
  }

  /** What was read and may be adopted is still there; or it was left by an earlier route
      of this name, and is gone. */
  predicate ReadStands(s: State, k: Key, uid: nat, id: Id, read: Option<Resource>) {
    Adoptable(k, read) ==>
      || Get(s.objects, id) == read
      || (id !in s.objects && read.value.owner != Some(ControllerRef(k, uid)))
  }

  /** How far the reconcile in flight has got. */
  predicate Progress(s: State, k: Key, j: Job) {
    var Job(uid, f, pc) := j;
    var b, h, p := BackendId(Base(k, f)), HttpRouteId(Base(k, f)), PolicyId(Base(k, f));
    match pc
    case GetBackend => true
    case PutBackend(read) => ReadStands(s, k, uid, b, read)
    case GetHttpRoute => Get(s.objects, b) == Some(BackendWanted(k, uid, f))
    case PutHttpRoute(read) =>
      && Get(s.objects, b) == Some(BackendWanted(k, uid, f))
      && ReadStands(s, k, uid, h, read)
    case DeletePolicy => Secure(s, k, uid, f) && RulesOf(f) == []
    case GetPolicy => Secure(s, k, uid, f) && RulesOf(f) != []
    case PutPolicy(read) =>
      Secure(s, k, uid, f) && RulesOf(f) != [] && ReadStands(s, k, uid, p, read)
    case Succeeded => AsWanted(s, k, uid, f)
  }

  /** Everything is as the present look-ups call for. */
  predicate Settled(s: State, k: Key)
    requires k in s.routes
  {
    match s.routes[k].inputs
    case NoGateway => true
    case NoUpstream => false
    case Resolved(f) => AsWanted(s, k, s.routes[k].uid, f)
  }

  predicate InStep(s: State, k: Key) {
    Alive(s, k) ==> Progress(s, k, s.running[k])
  }

  /** While the route is not queued, its reconcile in flight works on present data, and
      with none in flight its objects are right. */
  predicate Tracked(s: State, k: Key) {
    k in s.routes && k !in s.queued ==>
      if k in s.running then
        Alive(s, k) && s.routes[k].inputs == Resolved(s.running[k].found) && Progress(s, k, s.running[k])
      else if k in s.looking then s.looking[k] == s.routes[k].uid
      else Settled(s, k)
  }

  // ---------------------------------------------------------------- disturbance

  /** The route depends on this object: it controls it; or its reconcile in flight is
      about to patch it; or there should be no such policy, and the reconcile that saw to
      it has succeeded. */
  predicate ReliesOn(s: State, k: Key, id: Id) {
    || HeldBy(s, id, k)
    || (Alive(s, k) && id == Touched(k, s.running[k])
        && var j := s.running[k];
           (Writes(j.pc) && Adoptable(k, ReadAt(j))) || (j.pc.Succeeded? && RulesOf(j.found) == []))
    || (k in s.routes && !InFlight(s, k) && k !in s.queued && s.routes[k].inputs.Resolved?
        && var f := s.routes[k].inputs.found; RulesOf(f) == [] && id == PolicyId(Base(k, f)))
  }

  /** An object that the route depends on is changed; a leftover may disappear. */
  predicate Affects(s: State, e: Event, k: Key, id: Id)
    requires Enabled(s, e)
  {
    var after := Get(Apply(s, e).objects, id);
    ReliesOn(s, k, id) && after != Get(s.objects, id) && (after.Some? || HeldBy(s, id, k))
  }

  /** Somebody else changes an object that the route depends on. */
  ghost predicate Disturbs(s: State, e: Event, k: Key)
    requires Enabled(s, e)
  {
    !(e.Call? && e.route == k) && exists id :: Affects(s, e, k, id)
  }

  /** Nobody does while the reconcile of the route that exists is at its writes. */
  ghost predicate Undisturbed(ss: seq<State>, es: seq<Event>, k: Key, m: nat, n: nat)
    requires m <= n < |ss| == |es| + 1
  {
    forall i | m <= i < n :: Enabled(ss[i], es[i]) && Alive(ss[i], k) ==> !Disturbs(ss[i], es[i], k)
  }

  /** Nobody does while the route is not queued, but HTTPRoutes may be edited. */
  ghost predicate OnlyDrift(ss: seq<State>, es: seq<Event>, k: Key, m: nat, n: nat)
    requires m <= n < |ss| == |es| + 1
  {
    forall i | m <= i < n ::
      Enabled(ss[i], es[i]) && k !in ss[i].queued && !es[i].Drift? ==> !Disturbs(ss[i], es[i], k)
  }

  // ---------------------------------------------------------- the invariant kept

  lemma OwnPut(s: State, k: Key, id: Id, read: Option<Resource>, want: Resource, next: Pc, r: Reply)
    requires Alive(s, k) && want.owner == Self(k, s.running[k]) && ReadStands(s, k, s.running[k].uid, id, read)
    ensures var s' := DoPut(s, k, id, read, want, next, r);
            if k in s'.running then s'.running[k].pc == next && Get(s'.objects, id) == Some(want)
            else k in s'.queued
  {
  }

  lemma OwnProgress(s: State, k: Key, r: Reply)
    requires Alive(s, k) && Progress(s, k, s.running[k])
    ensures var s' := Advance(s, k, r);
            if k in s'.running then Progress(s', k, s'.running[k])
            else k in s'.queued || (AsWanted(s', k, s.running[k].uid, s.running[k].found))
  {
    CallFrame(s, k, r);
    var Job(uid, f, pc) := s.running[k];
    var b, h, p := BackendId(Base(k, f)), HttpRouteId(Base(k, f)), PolicyId(Base(k, f));
    var id := Touched(k, s.running[k]);
    if id != b { Untouched(s, k, r, b); }
    if id != h { Untouched(s, k, r, h); }
    if id != p { Untouched(s, k, r, p); }
    match pc {
      case PutBackend(read) => OwnPut(s, k, b, read, BackendWanted(k, uid, f), GetHttpRoute, r);
      case PutHttpRoute(read) => OwnPut(s, k, h, read, HttpRouteWanted(k, uid, f), PolicyPhase(f), r);
      case PutPolicy(read) => OwnPut(s, k, p, read, PolicyWanted(k, uid, f), Succeeded, r);
      case _ =>
    }
  }

  lemma OwnCallInStep(s: State, k: Key, r: Reply)
    requires k in s.running && InStep(s, k)
    ensures InStep(Advance(s, k, r), k)
  {
    CallFrame(s, k, r);
    if Alive(s, k) { OwnProgress(s, k, r); }
  }

  lemma OwnCallTracked(s: State, k: Key, r: Reply)
    requires k in s.running && k !in s.looking && Tracked(s, k)
    ensures Tracked(Advance(s, k, r), k)
  {
    CallFrame(s, k, r);
    if Alive(s, k) && k !in s.queued { OwnProgress(s, k, r); }
  }

  /** An object that the route depends on is left alone, or was a leftover and is gone. */
  lemma Left(s: State, e: Event, k: Key, id: Id)
    requires Enabled(s, e) && !(e.Call? && e.route == k) && !Disturbs(s, e, k) && ReliesOn(s, k, id)
    ensures Get(Apply(s, e).objects, id) == Get(s.objects, id) || (id !in Apply(s, e).objects && !HeldBy(s, id, k))
  {
    assert !Affects(s, e, k, id);
  }

  lemma WantedStays(s: State, e: Event, k: Key, id: Id, content: Content)
    requires Enabled(s, e) && !(e.Call? && e.route == k) && !Disturbs(s, e, k)
    requires k in s.routes && Get(s.objects, id) == Some(Wanted(k, s.routes[k].uid, content))
    ensures Get(Apply(s, e).objects, id) == Get(s.objects, id)
  {
    assert ReliesOn(s, k, id);
    Left(s, e, k, id);
  }

  lemma ProgressKept(s: State, e: Event, k: Key)
    requires Enabled(s, e) && !(e.Call? && e.route == k) && !Disturbs(s, e, k)
    requires Alive(s, k) && Progress(s, k, s.running[k])
    ensures Progress(Apply(s, e), k, s.running[k])
  {
    var Job(uid, f, pc) := s.running[k];
    var b, h, p := BackendId(Base(k, f)), HttpRouteId(Base(k, f)), PolicyId(Base(k, f));
    if Get(s.objects, b) == Some(BackendWanted(k, uid, f)) { WantedStays(s, e, k, b, Target(f.target)); }
    if Get(s.objects, h) == Some(HttpRouteWanted(k, uid, f)) {
      WantedStays(s, e, k, h, Path(f.gateway, Base(k, f), RoutePath(k)));
    }
    if Get(s.objects, p) == Some(PolicyWanted(k, uid, f)) {
      WantedStays(s, e, k, p, Rules(Base(k, f).name, RulesOf(f)));
    }
    if ReliesOn(s, k, Touched(k, s.running[k])) { Left(s, e, k, Touched(k, s.running[k])); }
  }

  lemma SettledKept(s: State, e: Event, k: Key)
    requires Enabled(s, e) && !(e.Call? && e.route == k) && !Disturbs(s, e, k)
    requires k in s.routes && !InFlight(s, k) && k !in s.queued && Settled(s, k)
    requires k in Apply(s, e).routes && Apply(s, e).routes[k] == s.routes[k]
    ensures Settled(Apply(s, e), k)
  {
    if s.routes[k].inputs.Resolved? {
      var f := s.routes[k].inputs.found;
      WantedStays(s, e, k, BackendId(Base(k, f)), Target(f.target));
      WantedStays(s, e, k, HttpRouteId(Base(k, f)), Path(f.gateway, Base(k, f), RoutePath(k)));
      if RulesOf(f) != [] {
        WantedStays(s, e, k, PolicyId(Base(k, f)), Rules(Base(k, f).name, RulesOf(f)));
      } else {
        assert ReliesOn(s, k, PolicyId(Base(k, f)));
        Left(s, e, k, PolicyId(Base(k, f)));
      }
    }
  }

  /** What an event other than a call of its own reconcile does to a reconcile of `k`. */
  lemma JobKept(s: State, e: Event, k: Key)
    requires UidsBelow(s) && Enabled(s, e) && !(e.Call? && e.route == k) && (k in s.running ==> k !in s.looking)
    ensures var s' := Apply(s, e);
            && (k in s.running ==> k in s'.running && s'.running[k] == s.running[k])
            && (k in s'.running && k !in s.running ==> s'.running[k].pc == GetBackend)
            && (k in s.running && Alive(s', k) ==> Alive(s, k))
  {
    var s' := Apply(s, e);
    if e.Call? {
      CallFrame(s, e.route, e.reply);
      assert k in s'.running - {e.route} <==> k in s.running - {e.route};
      if k in s.running { assert (s'.running - {e.route})[k] == (s.running - {e.route})[k]; }
    }
  }

  lemma OtherEventInStep(s: State, e: Event, k: Key)
    requires UidsBelow(s) && Enabled(s, e) && !(e.Call? && e.route == k)
    requires InStep(s, k) && (Alive(s, k) ==> !Disturbs(s, e, k)) && (k in s.running ==> k !in s.looking)
    ensures InStep(Apply(s, e), k)
  {
    JobKept(s, e, k);
    if Alive(s, k) { ProgressKept(s, e, k); }
  }

  predicate SameRoute(s: State, s': State, k: Key) {
    && (k in s.routes <==> k in s'.routes) && (k in s.routes ==> s'.routes[k] == s.routes[k])
    && (k in s'.looking <==> k in s.looking) && (k in s.looking ==> s'.looking[k] == s.looking[k])
    && (k in s'.running <==> k in s.running)
  }

  lemma CallLeavesOthers(s: State, o: Key, r: Reply, k: Key)
    requires o in s.running && k != o
    ensures SameRoute(s, Advance(s, o, r), k) && (k in s.queued ==> k in Advance(s, o, r).queued)
  {
    CallFrame(s, o, r);
    assert k in Advance(s, o, r).running - {o} <==> k in s.running - {o};
  }

  /** An event after which the route is not queued leaves its route, and whether it is in
      flight, as they were, or is one of its own reconcile. */
  lemma UnqueuedFrame(s: State, e: Event, k: Key)
    requires Enabled(s, e) && !(e.Call? && e.route == k) && k !in Apply(s, e).queued && k in Apply(s, e).routes
    requires !(e.Start? && e.route == k) && !(e.LookUp? && e.route == k)
    ensures k !in s.queued && SameRoute(s, Apply(s, e), k)
  {
    match e {
      case Call(o, r) => CallLeavesOthers(s, o, r, k);
      case Collect(id) => WithObjectFrame(s, id, None);
      case Drift(id, c) => WithObjectFrame(s, id, Some(s.objects[id].(content := c)));
      case _ =>
    }
  }

  lemma OtherEventTracked(s: State, e: Event, k: Key)
    requires UidsBelow(s) && Enabled(s, e) && !(e.Call? && e.route == k) && !Disturbs(s, e, k) && Tracked(s, k)
    requires k in s.running ==> k !in s.looking
    ensures Tracked(Apply(s, e), k)
  {
    var s' := Apply(s, e);
    if k in s'.routes && k !in s'.queued {
      if (e.Start? || e.LookUp?) && e.route == k {
      } else {
        UnqueuedFrame(s, e, k);
        JobKept(s, e, k);
        if k in s.running {
          ProgressKept(s, e, k);
        } else if k !in s.looking {
          SettledKept(s, e, k);
        }
      }
    }
  }

  /** Drift of an HTTPRoute that the route depends on queues the route. */
  lemma DriftTracked(s: State, e: Event, k: Key)
    requires UidsBelow(s) && Enabled(s, e) && e.Drift? && Tracked(s, k) && (k in s.running ==> k !in s.looking)
    ensures Tracked(Apply(s, e), k)
  {
    if Disturbs(s, e, k) {
      var id :| Affects(s, e, k, id);
      assert id == e.id && s.objects[id].owner.Some?;
      if k in s.routes && k !in s.queued { DriftWakes(s, e, k); }
    } else {
      OtherEventTracked(s, e, k);
    }
  }

  lemma DriftWakes(s: State, e: Event, k: Key)
    requires UidsBelow(s) && Enabled(s, e) && e.Drift? && Affects(s, e, k, e.id)
    requires Tracked(s, k) && k in s.routes && k !in s.queued
    ensures k in Apply(s, e).queued
  {
    if !HeldBy(s, e.id, k) {
      assert k in s.running;
      assert Progress(s, k, s.running[k]);
    }
    assert s.objects[e.id].owner.value.route == k;
  }

  lemma {:induction false} RunUids(ss: seq<State>, es: seq<Event>, n: nat)
    requires Run(ss, es) && n < |ss|
    ensures UidsBelow(ss[n])
    decreases n
  {
    if n > 0 {
      RunUids(ss, es, n - 1);
      assert StepAt(ss, es, n - 1);
      if es[n - 1].Call? {
        CallUids(ss[n - 1], es[n - 1].route, es[n - 1].reply);
      } else {
        ClusterUids(ss[n - 1], es[n - 1]);
      }
    }
  }

  /** A reconcile is either at its look-ups or at its writes. */
  lemma {:induction false} RunPhases(ss: seq<State>, es: seq<Event>, n: nat)
    requires Run(ss, es) && n < |ss|
    ensures forall k | k in ss[n].running :: k !in ss[n].looking
    decreases n
  {
    if n > 0 {
      RunPhases(ss, es, n - 1);
      assert StepAt(ss, es, n - 1);
      var s, s', e := ss[n - 1], ss[n], es[n - 1];
      if e.Call? {
        CallFrame(s, e.route, e.reply);
        forall k | k in s'.running ensures k !in s'.looking {
          if k != e.route { assert k in s'.running - {e.route} && k in s.running - {e.route}; }
        }
      }
    }
  }

  lemma {:induction false} RunInStep(ss: seq<State>, es: seq<Event>, k: Key, m: nat, n: nat)
    requires Run(ss, es) && m <= n < |ss| && k !in ss[m].running && Undisturbed(ss, es, k, m, n)
    ensures InStep(ss[n], k)
    decreases n
  {
    if n > m {
      RunInStep(ss, es, k, m, n - 1);
      assert StepAt(ss, es, n - 1);
      if es[n - 1].Call? && es[n - 1].route == k {
        OwnCallInStep(ss[n - 1], k, es[n - 1].reply);
      } else {
        RunUids(ss, es, n - 1);
        RunPhases(ss, es, n - 1);
        OtherEventInStep(ss[n - 1], es[n - 1], k);
      }
    }
  }

  /** A queued route stays queued or is taken up. */
  lemma QueuedTracked(s: State, e: Event, k: Key)
    requires Enabled(s, e) && k in s.queued && (k in s.running ==> k !in s.looking)
    ensures Tracked(Apply(s, e), k)
  {
    if e.Call? { CallFrame(s, e.route, e.reply); }
  }

  /** One event, by whomever. */
  lemma EventTracked(s: State, e: Event, k: Key)
    requires UidsBelow(s) && Enabled(s, e) && (k in s.queued || e.Drift? || !Disturbs(s, e, k))
    requires Tracked(s, k) && (k in s.running ==> k !in s.looking)
    ensures Tracked(Apply(s, e), k)
  {
    if k in s.queued {
      QueuedTracked(s, e, k);
    } else if e.Drift? {
      DriftTracked(s, e, k);
    } else if e.Call? && e.route == k {
      OwnCallTracked(s, k, e.reply);
    } else {
      OtherEventTracked(s, e, k);
    }
  }

  lemma {:induction false} RunTracks(ss: seq<State>, es: seq<Event>, k: Key, m: nat, n: nat)
    requires Run(ss, es) && m <= n < |ss| && k in ss[m].queued && OnlyDrift(ss, es, k, m, n)
    ensures Tracked(ss[n], k)
    decreases n
  {
    if n > m {
      RunTracks(ss, es, k, m, n - 1);
      assert StepAt(ss, es, n - 1);
      RunUids(ss, es, n - 1);
      RunPhases(ss, es, n - 1);
      EventTracked(ss[n - 1], es[n - 1], k);
    }
  }

  // ------------------------------------------------------------- main results

  /** At success, in every run: if nobody has disturbed the route since some moment at
      which it was not being written, the three objects of its base name are its own and
      hold exactly what the look-ups of this reconcile returned. */
  lemma SuccessIsComplete(ss: seq<State>, es: seq<Event>, k: Key, m: nat, n: nat)
    requires Run(ss, es) && m <= n < |ss| && k !in ss[m].running && Undisturbed(ss, es, k, m, n)
    requires Alive(ss[n], k) && ss[n].running[k].pc == Succeeded
    ensures var j := ss[n].running[k];
            var base := BaseName(j.found.gateway.name, k);
            && Get(ss[n].objects, BackendId(base)) == Some(BackendWanted(k, j.uid, j.found))
            && Get(ss[n].objects, HttpRouteId(base)) == Some(HttpRouteWanted(k, j.uid, j.found))
            && Get(ss[n].objects, PolicyId(base)) ==
               if RulesOf(j.found) == [] then None else Some(PolicyWanted(k, j.uid, j.found))
  {
    RunInStep(ss, es, k, m, n);
  }

  /** Nothing is missed, edits of HTTPRoutes included: a route that exists, is idle and not
      queued, and was otherwise not disturbed since some moment at which it was queued, has
      no gateway here, or has exactly the objects its present gateway, upstream and filter
      call for. */
  lemma NothingMissed(ss: seq<State>, es: seq<Event>, k: Key, m: nat, n: nat)
    requires Run(ss, es) && m <= n < |ss| && k in ss[m].queued && OnlyDrift(ss, es, k, m, n)
    requires k in ss[n].routes && k !in ss[n].queued && !InFlight(ss[n], k)
    ensures Settled(ss[n], k)
  {
    RunTracks(ss, es, k, m, n);
  }

  // ----------------------------------------------------------- no disturbance

  /** What a route depends on is its own; or a policy that is absent while the route
      controls the backend; or a leftover that it is about to adopt. */
  lemma Dependence(s: State, k: Key, id: Id)
    requires InStep(s, k) && ReliesOn(s, k, id)
    requires k in s.routes && !InFlight(s, k) && k !in s.queued ==> Settled(s, k)
    ensures || HeldBy(s, id, k)
            || (id !in s.objects && exists base :: id == PolicyId(base) && HeldBy(s, BackendId(base), k))
            || Adopts(s, k)
  {
    if Alive(s, k) && id == Touched(k, s.running[k]) {
      var base := Base(k, s.running[k].found);
      if s.running[k].pc.Succeeded? { assert id == PolicyId(base) && HeldBy(s, BackendId(base), k); }
    } else if !HeldBy(s, id, k) {
      var base := Base(k, s.routes[k].inputs.found);
      assert id == PolicyId(base) && HeldBy(s, BackendId(base), k);
    }
  }

  /** The reconcile is about to patch what an earlier route of its name has left. */
  predicate Adopts(s: State, k: Key) {
    Alive(s, k) && var j := s.running[k];
    Writes(j.pc) && Adoptable(k, ReadAt(j)) && ReadAt(j).value.owner != Self(k, j)
  }

  /** A call of `o` does not interfere with `k`. */
  ghost predicate Keeps(s: State, o: Key, r: Reply, k: Key)
    requires o in s.running
  {
    && !Adopts(s, k)
    && (forall id :: HeldBy(s, id, k) ==> Get(Advance(s, o, r).objects, id) == Get(s.objects, id))
    && (s.running[o].pc.PutPolicy? ==> NoOtherHolds(s, o, BackendId(Base(o, s.running[o].found))))
  }

  lemma AbsentPolicyStaysAbsent(s: State, o: Key, r: Reply, base: Key, k: Key)
    requires o in s.running && o != k && Keeps(s, o, r, k)
    requires HeldBy(s, BackendId(base), k) && PolicyId(base) !in s.objects
    ensures PolicyId(base) !in Advance(s, o, r).objects
  {
    var j := s.running[o];
    CallEffect(s, o, r);
    if PolicyId(base) == Touched(o, j) {
      PolicyIdInjective(base, Base(o, j.found));
    } else {
      Untouched(s, o, r, PolicyId(base));
    }
  }

  /** Then nobody disturbs the route. */
  lemma NotDisturbed(s: State, e: Event, k: Key)
    requires Enabled(s, e) && !e.Drift? && !(e.Call? && e.route == k) && InStep(s, k)
    requires k in s.routes && !InFlight(s, k) && k !in s.queued ==> Settled(s, k)
    requires e.Call? ==> Keeps(s, e.route, e.reply, k)
    ensures !Disturbs(s, e, k)
  {
    if Disturbs(s, e, k) {
      var id :| Affects(s, e, k, id);
      Dependence(s, k, id);
      if e.Call? && !HeldBy(s, id, k) {
        var base :| id == PolicyId(base) && HeldBy(s, BackendId(base), k);
        AbsentPolicyStaysAbsent(s, e.route, e.reply, base, k);
      }
    }
  }

  // -------------------------------------------------- runs without interference

  /** Nothing is left of an earlier ToolRoute of this name. */
  predicate NoTrace(s: State, k: Key) {
    !InFlight(s, k) && forall id | id in s.objects && s.objects[id].owner.Some? :: s.objects[id].owner.value.route != k
  }

  /** Any number of workers; routes are deleted at any time, but created again only when
      nothing is left. */
  predicate Careful(ss: seq<State>, es: seq<Event>)
    requires |ss| == |es| + 1
  {
    forall i | 0 <= i < |es| :: es[i].CreateRoute? ==> NoTrace(ss[i], es[i].route)
  }

  /** And not deleted while they are in flight. */
  predicate Calm(ss: seq<State>, es: seq<Event>)
    requires |ss| == |es| + 1
  {
    && Careful(ss, es)
    && forall i | 0 <= i < |es| :: es[i].DeleteRoute? ==> !InFlight(ss[i], es[i].route)
  }

  predicate OwnerClean(s: State, owner: Option<ControllerRef>) {
    && owner.Some?
    && (owner.value.route in s.routes ==> owner.value.uid == s.routes[owner.value.route].uid)
    && (owner.value.route in s.looking ==> owner.value.uid == s.looking[owner.value.route])
    && (owner.value.route in s.running ==> owner.value.uid == s.running[owner.value.route].uid)
  }

  predicate JobClean(s: State, k: Key)
    requires k in s.running
  {
    var j := s.running[k];
    && k !in s.looking
    && (k in s.routes ==> Alive(s, k))
    && (Writes(j.pc) && Adoptable(k, ReadAt(j)) ==> ReadAt(j).value.owner == Self(k, j))
  }

  /** Of each route name only one UID is about. */
  predicate Clean(s: State) {
    && (forall id | id in s.objects :: OwnerClean(s, s.objects[id].owner))
    && (forall k | k in s.running :: JobClean(s, k))
    && (forall k | k in s.looking :: k in s.routes ==> LooksForItself(s, k))
  }

  lemma CleanCall(s: State, k: Key, r: Reply)
    requires Clean(s) && k in s.running
    ensures Clean(Advance(s, k, r)) && !Steals(s, k, r)
  {
    var s' := Advance(s, k, r);
    assert JobClean(s, k);
    CallFrame(s, k, r);
    forall id | id in s'.objects ensures OwnerClean(s', s'.objects[id].owner) { CleanObject(s, k, r, id); }
    forall o | o in s'.running ensures JobClean(s', o) {
      if o != k {
        assert o in s'.running - {k} && (s'.running - {k})[o] == (s.running - {k})[o];
        assert JobClean(s, o);
      } else {
        CleanRead(s, k, r);
      }
    }
  }

  lemma CleanObject(s: State, k: Key, r: Reply, id: Id)
    requires Clean(s) && k in s.running && id in Advance(s, k, r).objects
    ensures OwnerClean(Advance(s, k, r), Advance(s, k, r).objects[id].owner)
  {
    CallEffect(s, k, r);
    if id != Touched(k, s.running[k]) { Untouched(s, k, r, id); }
    if id in s.objects { assert OwnerClean(s, s.objects[id].owner); }
    CleanOwner(s, k, r, Advance(s, k, r).objects[id].owner);
  }

  lemma CleanOwner(s: State, k: Key, r: Reply, owner: Option<ControllerRef>)
    requires Clean(s) && k in s.running
    requires OwnerClean(s, owner) || owner == Self(k, s.running[k])
    ensures OwnerClean(Advance(s, k, r), owner)
  {
    var s' := Advance(s, k, r);
    CallFrame(s, k, r);
    assert JobClean(s, k);
    var o := owner.value.route;
    if o in s'.running && o != k {
      assert o in s'.running - {k} && (s'.running - {k})[o] == (s.running - {k})[o];
    }
  }

  /** A reconcile that is about to write has just read. */
  lemma JustRead(s: State, k: Key, r: Reply)
    requires k in s.running && k in Advance(s, k, r).running && Writes(Advance(s, k, r).running[k].pc)
    ensures ReadAt(Advance(s, k, r).running[k]) == Get(s.objects, Touched(k, s.running[k]))
  {
    CallFrame(s, k, r);
    var j := s.running[k];
    match j.pc {
      case PutBackend(read) => PutFrame(s, k, Touched(k, j), read, WantedAt(k, j), GetHttpRoute, r);
      case PutHttpRoute(read) => PutFrame(s, k, Touched(k, j), read, WantedAt(k, j), PolicyPhase(j.found), r);
      case PutPolicy(read) => PutFrame(s, k, Touched(k, j), read, WantedAt(k, j), Succeeded, r);
      case _ =>
    }
  }

  /** What a reconcile reads as its own bears its own UID. */
  lemma CleanRead(s: State, k: Key, r: Reply)
    requires Clean(s) && k in s.running && k in Advance(s, k, r).running
    ensures JobClean(Advance(s, k, r), k)
  {
    var s' := Advance(s, k, r);
    CallFrame(s, k, r);
    assert JobClean(s, k);
    var id := Touched(k, s.running[k]);
    if id in s.objects { assert OwnerClean(s, s.objects[id].owner); }
    if Writes(s'.running[k].pc) { JustRead(s, k, r); }
  }

  lemma CleanClusterOwner(s: State, e: Event, owner: Option<ControllerRef>)
    requires Clean(s) && Enabled(s, e) && !e.Call? && OwnerClean(s, owner)
    requires e.CreateRoute? ==> owner.value.route != e.route
    ensures OwnerClean(Apply(s, e), owner)
  {
    match e {
      case Collect(id) => WithObjectFrame(s, id, None);
      case Drift(id, c) => WithObjectFrame(s, id, Some(s.objects[id].(content := c)));
      case _ =>
    }
  }

  /** No owner of an object is new. */
  lemma ClusterOwners(s: State, e: Event, id: Id)
    requires Enabled(s, e) && !e.Call? && id in Apply(s, e).objects
    ensures id in s.objects && Apply(s, e).objects[id].owner == s.objects[id].owner
  {
  }

  lemma CleanCluster(s: State, e: Event)
    requires Clean(s) && Enabled(s, e) && !e.Call? && (e.CreateRoute? ==> NoTrace(s, e.route))
    ensures Clean(Apply(s, e))
  {
    var s' := Apply(s, e);
    forall id | id in s'.objects ensures OwnerClean(s', s'.objects[id].owner) {
      ClusterOwners(s, e, id);
      assert OwnerClean(s, s.objects[id].owner);
      CleanClusterOwner(s, e, s.objects[id].owner);
    }
    forall o | o in s'.running ensures JobClean(s', o) { CleanClusterJob(s, e, o); }
  }

  lemma CleanClusterJob(s: State, e: Event, o: Key)
    requires Clean(s) && Enabled(s, e) && !e.Call? && (e.CreateRoute? ==> NoTrace(s, e.route))
    requires o in Apply(s, e).running
    ensures JobClean(Apply(s, e), o)
  {
    if o in s.running {
      assert JobClean(s, o);
      JobUntouched(s, e, o);
    } else {
      assert e.LookUp? && e.route == o;
    }
  }

  lemma JobUntouched(s: State, e: Event, o: Key)
    requires Enabled(s, e) && !e.Call? && o in s.running && o !in s.looking
    ensures var s' := Apply(s, e);
            && o in s'.running && s'.running[o] == s.running[o] && o !in s'.looking
            && (o in s'.routes && e != CreateRoute(o, s'.routes[o].inputs) ==>
                  o in s.routes && s'.routes[o].uid == s.routes[o].uid)
  {
    match e {
      case Collect(id) => WithObjectFrame(s, id, None);
      case Drift(id, c) => WithObjectFrame(s, id, Some(s.objects[id].(content := c)));
      case _ =>
    }
  }

  lemma {:induction false} CarefulRunIsClean(ss: seq<State>, es: seq<Event>, n: nat)
    requires Run(ss, es) && Careful(ss, es) && n < |ss|
    ensures Clean(ss[n]) && forall base :: NoTheft(ss, es, base, n)
    decreases n
  {
    if n > 0 {
      CarefulRunIsClean(ss, es, n - 1);
      assert StepAt(ss, es, n - 1);
      var e := es[n - 1];
      if e.Call? {
        CleanCall(ss[n - 1], e.route, e.reply);
      } else {
        CleanCluster(ss[n - 1], e);
      }
      forall base ensures NoTheft(ss, es, base, n) {
        assert NoTheft(ss, es, base, n - 1);
        assert !StealsAt(ss, es, n - 1, base);
      }
    }
  }

  /** Ownership without exception, with any number of workers: where routes are deleted at
      any time, but created again only when nothing is left of them, no reconcile whose
      route exists ever changes or deletes an object that another existing route controls. */
  lemma CarefulRunsKeepOwnership(ss: seq<State>, es: seq<Event>, n: nat, k: Key, r: Reply, id: Id, other: Key)
    requires Run(ss, es) && Careful(ss, es) && n < |ss|
    requires Alive(ss[n], k) && other != k && HeldBy(ss[n], id, other)
    ensures Get(Advance(ss[n], k, r).objects, id) == Get(ss[n].objects, id)
  {
    CarefulRunIsClean(ss, es, n);
    CleanCall(ss[n], k, r);
    OwnershipHolds(ss, es, n, k, r, id, other);
  }

  // ------------------------------------------------------------------ calm runs

  predicate AllAlive(s: State) {
    && (forall k | k in s.running :: Alive(s, k))
    && (forall k | k in s.looking :: LooksForItself(s, k))
  }

  lemma CalmStep(s: State, e: Event)
    requires AllAlive(s) && Enabled(s, e) && (e.DeleteRoute? ==> !InFlight(s, e.route))
    ensures AllAlive(Apply(s, e))
  {
    var s' := Apply(s, e);
    if e.Call? {
      CallFrame(s, e.route, e.reply);
      forall k | k in s'.running ensures Alive(s', k) {
        if k != e.route {
          assert k in s'.running - {e.route} && (s'.running - {e.route})[k] == (s.running - {e.route})[k];
        }
        assert Alive(s, k);
      }
    } else {
      forall k | k in s'.running ensures Alive(s', k) {
        if k in s.running { assert Alive(s, k); } else { assert LooksForItself(s, k); }
      }
    }
  }

  lemma {:induction false} CalmRun(ss: seq<State>, es: seq<Event>, n: nat)
    requires Run(ss, es) && Calm(ss, es) && n < |ss|
    ensures AllAlive(ss[n]) && Clean(ss[n]) && Inv(ss[n])
    decreases n
  {
    CarefulRunIsClean(ss, es, n);
    forall base ensures InvAt(ss[n], base) { RunKeeps(ss, es, base, n); }
    if n > 0 {
      CalmRun(ss, es, n - 1);
      assert StepAt(ss, es, n - 1);
      CalmStep(ss[n - 1], es[n - 1]);
    }
  }

  lemma CalmKeeps(s: State, o: Key, r: Reply, k: Key)
    requires AllAlive(s) && Clean(s) && Inv(s) && o in s.running && o != k
    ensures Keeps(s, o, r, k)
  {
    var base := Base(o, s.running[o].found);
    assert Alive(s, o) && InvAt(s, base) && JobOk(s, base, o);
    CleanCall(s, o, r);
    forall id | HeldBy(s, id, k) ensures Get(Advance(s, o, r).objects, id) == Get(s.objects, id) {
      LiveCall(s, o, r, id, k);
    }
    if k in s.running { assert JobClean(s, k); }
  }

  lemma {:induction false} CalmRunTracks(ss: seq<State>, es: seq<Event>, k: Key, n: nat)
    requires Run(ss, es) && Calm(ss, es) && n < |ss|
    ensures Tracked(ss[n], k)
    decreases n
  {
    if n > 0 {
      CalmRunTracks(ss, es, k, n - 1);
      assert StepAt(ss, es, n - 1);
      var s, e := ss[n - 1], es[n - 1];
      CalmRun(ss, es, n - 1);
      RunPhases(ss, es, n - 1);
      assert InvAt(s, Key("", ""));
      if k !in s.queued && !e.Drift? && !(e.Call? && e.route == k) {
        if e.Call? { CalmKeeps(s, e.route, e.reply, k); }
        NotDisturbed(s, e, k);
      }
      EventTracked(s, e, k);
    }
  }

  /** In calm runs, with any number of workers and whatever base names collide, an idle
      route that is not queued has exactly its objects. */
  lemma CalmRunsMissNothing(ss: seq<State>, es: seq<Event>, k: Key, n: nat)
    requires Run(ss, es) && Calm(ss, es) && n < |ss|
    requires k in ss[n].routes && k !in ss[n].queued && !InFlight(ss[n], k)
    ensures Settled(ss[n], k)
  {
    CalmRunTracks(ss, es, k, n);
  }
}
