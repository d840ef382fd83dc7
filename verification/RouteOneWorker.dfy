/** The ToolRoute machine as the operator runs it: one instance with one worker, so that a
    reconcile starts only when none is in flight.  Everything else is as free as before:
    routes are deleted, created again and edited at any time, also in flight, leftovers are
    collected late, calls fail, and base names collide. */
module RouteOneWorker {
  import opened Objects
  import opened Api
  import opened RouteMachine
  import opened RouteOwnership
  import opened RouteCompletion

  /** One worker: a reconcile starts only when none is in flight. */
  predicate OneAtATime(ss: seq<State>, es: seq<Event>)
    requires |ss| == |es| + 1
  {
    forall i | 0 <= i < |es| :: es[i].Start? ==> ss[i].looking == map[] && ss[i].running == map[]
  }

  ghost predicate AtMostOne(s: State) {
    forall a, b :: InFlight(s, a) && InFlight(s, b) ==> a == b
  }

  /** No other route controls the backend that the reconcile in flight has read as absent
      or as its own. */
  predicate Unrivalled(s: State, k: Key)
    requires k in s.running
  {
    var Job(_, f, pc) := s.running[k];
    match pc
    case GetBackend => true
    case PutBackend(read) => (read.Some? ==> MayControl(k, read.value)) ==> NoOtherHolds(s, k, BackendId(Base(k, f)))
    case _ => NoOtherHolds(s, k, BackendId(Base(k, f)))
  }

  ghost predicate SoloInv(s: State) {
    Inv(s) && AtMostOne(s) && forall k | k in s.running :: Unrivalled(s, k)
  }

  /** Then no call harms anybody, whether its route exists or not. */
  lemma SoloCallHarmless(s: State, k: Key, r: Reply, id: Id, other: Key)
    requires SoloInv(s) && k in s.running && other != k && HeldBy(s, id, other)
    ensures Get(Advance(s, k, r).objects, id) == Get(s.objects, id)
  {
    assert Unrivalled(s, k) && InvAt(s, Base(k, s.running[k].found));
    HarmIff(s, k, r, id, other);
  }

  lemma SoloNeverSteals(s: State, k: Key, r: Reply)
    requires SoloInv(s) && k in s.running
    ensures !Steals(s, k, r)
  {
    if Steals(s, k, r) {
      var id := Touched(k, s.running[k]);
      var other := s.objects[id].owner.value.route;
      HarmIff(s, k, r, id, other);
      SoloCallHarmless(s, k, r, id, other);
    }
  }

  lemma RivalsStayAway(s: State, k: Key, r: Reply, id: Id)
    requires k in s.running && NoOtherHolds(s, k, id)
    ensures NoOtherHolds(Advance(s, k, r), k, id)
  {
    var s' := Advance(s, k, r);
    if id in s'.objects && s'.objects[id].owner.Some? && s'.objects[id].owner.value.route != k {
      var o := s'.objects[id].owner.value.route;
      if HeldBy(s', id, o) { OthersGainNothing(s, k, r, id, o); }
    }
  }

  lemma SoloCall(s: State, k: Key, r: Reply)
    requires SoloInv(s) && k in s.running
    ensures SoloInv(Advance(s, k, r))
  {
    var s' := Advance(s, k, r);
    SoloNeverSteals(s, k, r);
    forall base ensures InvAt(s', base) { assert InvAt(s, base); CallKeeps(s, k, r, base); }
    CallFrame(s, k, r);
    assert Unrivalled(s, k);
    RivalsStayAwayIfAny(s, k, r);
    assert InFlight(s, k);
    forall o | InFlight(s', o) ensures o == k {
      if o in s'.running && o != k { assert o in s'.running - {k} && o in s.running - {k}; }
      assert InFlight(s, o);
    }
    forall o | o in s'.running ensures Unrivalled(s', o) { assert InFlight(s', o); }
  }

  lemma RivalsStayAwayIfAny(s: State, k: Key, r: Reply)
    requires k in s.running && Unrivalled(s, k)
    ensures k in Advance(s, k, r).running ==> Unrivalled(Advance(s, k, r), k)
  {
    CallFrame(s, k, r);
    var b := BackendId(Base(k, s.running[k].found));
    if NoOtherHolds(s, k, b) { RivalsStayAway(s, k, r, b); }
  }

  lemma SoloCluster(s: State, e: Event)
    requires SoloInv(s) && Enabled(s, e) && !e.Call?
    requires e.Start? ==> s.looking == map[] && s.running == map[]
    ensures SoloInv(Apply(s, e))
  {
    var s' := Apply(s, e);
    forall base ensures InvAt(s', base) { assert InvAt(s, base); ClusterKeeps(s, e, base); }
    assert InvAt(s, Key("", ""));
    assert AtMostOne(s') by { StillAtMostOne(s, e); }
    forall k | k in s'.running ensures Unrivalled(s', k) { StillUnrivalled(s, e, k); }
  }

  lemma StillUnrivalled(s: State, e: Event, k: Key)
    requires UidsBelow(s) && Enabled(s, e) && !e.Call? && k in Apply(s, e).running
    requires k in s.running ==> Unrivalled(s, k) && k !in s.looking
    ensures Unrivalled(Apply(s, e), k)
  {
    var s' := Apply(s, e);
    LookingFrame(s, e, k);
    if k in s.running {
      JobUntouched(s, e, k);
      var b := BackendId(Base(k, s.running[k].found));
      if b in s'.objects {
        ClusterOwners(s, e, b);
        ClusterHoldings(s, e, b, s'.objects[b].owner.value.route);
      }
    }
  }

  lemma StillAtMostOne(s: State, e: Event)
    requires AtMostOne(s) && Enabled(s, e) && !e.Call? && (e.Start? ==> s.looking == map[] && s.running == map[])
    ensures AtMostOne(Apply(s, e))
  {
    var s' := Apply(s, e);
    if e.Start? {
      forall o | InFlight(s', o) ensures o == e.route { }
    } else {
      forall o | InFlight(s', o) ensures InFlight(s, o) { }
    }
  }

  lemma {:induction false} SoloRun(ss: seq<State>, es: seq<Event>, n: nat)
    requires Run(ss, es) && OneAtATime(ss, es) && n < |ss|
    ensures SoloInv(ss[n])
    decreases n
  {
    if n > 0 {
      SoloRun(ss, es, n - 1);
      assert StepAt(ss, es, n - 1);
      var e := es[n - 1];
      if e.Call? {
        SoloCall(ss[n - 1], e.route, e.reply);
      } else {
        SoloCluster(ss[n - 1], e);
      }
    }
  }

  // ---------------------------------------------------------------- completion

  lemma SoloKeeps(s: State, o: Key, r: Reply, k: Key)
    requires SoloInv(s) && o in s.running && o != k
    ensures Keeps(s, o, r, k)
  {
    assert InFlight(s, o) && Unrivalled(s, o);
    assert !InFlight(s, k);
    forall id | HeldBy(s, id, k) ensures Get(Advance(s, o, r).objects, id) == Get(s.objects, id) {
      SoloCallHarmless(s, o, r, id, k);
    }
  }

  lemma SoloSpares(s: State, e: Event, k: Key)
    requires SoloInv(s) && Enabled(s, e) && !e.Drift? && !(e.Call? && e.route == k) && InStep(s, k)
    requires k in s.routes && !InFlight(s, k) && k !in s.queued ==> Settled(s, k)
    ensures !Disturbs(s, e, k)
  {
    if e.Call? { SoloKeeps(s, e.route, e.reply, k); }
    NotDisturbed(s, e, k);
  }

  lemma {:induction false} SoloRunTracks(ss: seq<State>, es: seq<Event>, k: Key, n: nat)
    requires Run(ss, es) && OneAtATime(ss, es) && n < |ss|
    ensures Tracked(ss[n], k)
    decreases n
  {
    if n > 0 {
      SoloRunTracks(ss, es, k, n - 1);
      assert StepAt(ss, es, n - 1);
      var s, e := ss[n - 1], es[n - 1];
      SoloRun(ss, es, n - 1);
      RunUids(ss, es, n - 1);
      RunPhases(ss, es, n - 1);
      if k !in s.queued && !e.Drift? && !(e.Call? && e.route == k) { SoloSpares(s, e, k); }
      EventTracked(s, e, k);
    }
  }

  lemma {:induction false} SoloRunInStep(ss: seq<State>, es: seq<Event>, k: Key, m: nat, n: nat)
    requires Run(ss, es) && OneAtATime(ss, es) && m <= n < |ss| && k !in ss[m].running
    requires forall i | m <= i < n :: !es[i].Drift?
    ensures InStep(ss[n], k)
    decreases n
  {
    if n > m {
      SoloRunInStep(ss, es, k, m, n - 1);
      assert StepAt(ss, es, n - 1);
      var s, e := ss[n - 1], es[n - 1];
      SoloRun(ss, es, n - 1);
      RunUids(ss, es, n - 1);
      RunPhases(ss, es, n - 1);
      if e.Call? && e.route == k {
        OwnCallInStep(s, k, e.reply);
      } else {
        if Alive(s, k) { SoloSpares(s, e, k); }
        OtherEventInStep(s, e, k);
      }
    }
  }

  // ------------------------------------------------------------- main results

  /** Ownership as the operator runs, one reconcile at a time: in every run, with routes
      deleted and created again at any time, failing calls and base names that collide, no
      reconcile ever changes or deletes an object that another existing route controls, the
      by-name policy delete included, whether its own route still exists or not. */
  lemma OneWorkerKeepsOwnership(
    ss: seq<State>, es: seq<Event>, n: nat, k: Key, r: Reply, id: Id, other: Key)
    requires Run(ss, es) && OneAtATime(ss, es) && n < |ss|
    requires k in ss[n].running && other != k && HeldBy(ss[n], id, other)
    ensures Get(Advance(ss[n], k, r).objects, id) == Get(ss[n].objects, id)
  {
    SoloRun(ss, es, n);
    SoloCallHarmless(ss[n], k, r, id, other);
  }

  /** Nothing is missed, in every run: a ToolRoute that exists, is idle and not queued has no
      gateway here, or has exactly the backend, the HTTPRoute and the policy, or absence of
      a policy, that its present gateway, upstream and filter call for. */
  lemma OneWorkerMissesNothing(ss: seq<State>, es: seq<Event>, k: Key, n: nat)
    requires Run(ss, es) && OneAtATime(ss, es) && n < |ss|
    requires k in ss[n].routes && k !in ss[n].queued && !InFlight(ss[n], k)
    ensures Settled(ss[n], k)
  {
    SoloRunTracks(ss, es, k, n);
  }

  /** And a reconcile that is about to report success, if its route still exists and nobody
      has edited an HTTPRoute since it began, has made all its objects as its look-ups say. */
  lemma OneWorkerSuccessIsComplete(ss: seq<State>, es: seq<Event>, k: Key, m: nat, n: nat)
    requires Run(ss, es) && OneAtATime(ss, es) && m <= n < |ss| && k !in ss[m].running
    requires forall i | m <= i < n :: !es[i].Drift?
    requires Alive(ss[n], k) && ss[n].running[k].pc == Succeeded
    ensures AsWanted(ss[n], k, ss[n].running[k].uid, ss[n].running[k].found)
  {
    SoloRunInStep(ss, es, k, m, n);
  }
}
