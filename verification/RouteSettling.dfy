/** The reconciles of one ToolRoute settle: with what its look-ups return fixed, nobody else
    at work on its objects, and calls that succeed, the route comes to rest exactly when it
    can. */
module RouteSettling {
  import opened Wrappers
  import opened Objects
  import opened Api
  import opened RouteMachine
  import opened RouteOwnership
  import opened RouteCompletion

  /** The name is not taken by another route. */
  predicate Free(s: State, k: Key, id: Id) {
    id in s.objects ==> MayControl(k, s.objects[id])
  }

  predicate AllFree(s: State, k: Key, f: Found) {
    && Free(s, k, BackendId(Base(k, f))) && Free(s, k, HttpRouteId(Base(k, f)))
    && (RulesOf(f) != [] ==> Free(s, k, PolicyId(Base(k, f))))
  }

  /** There is nothing to do, or the upstream is there and no name that is needed is taken. */
  predicate Settleable(s: State, k: Key) {
    k in s.routes ==>
      match s.routes[k].inputs
      case NoGateway => true
      case NoUpstream => false
      case Resolved(f) => AllFree(s, k, f)
  }

  predicate Waiting(s: State, k: Key) {
    k in s.queued || InFlight(s, k)
  }

  /** The next thing that happens to the route, if every call succeeds. */
  function Tick(s: State, k: Key): State
    requires Waiting(s, k)
  {
    if k in s.running then Advance(s, k, Done)
    else if k in s.looking then LookedUp(s, k, if k in s.routes then s.routes[k].inputs else NoGateway, Done)
    else Started(s, k)
  }

  function WantedPolicy(k: Key, uid: nat, f: Found): Option<Resource> {
    if RulesOf(f) == [] then None else Some(PolicyWanted(k, uid, f))
  }

  /** How many of the three objects differ from what is wanted. */
  function Wrong(s: State, k: Key): nat {
    if k !in s.routes || !s.routes[k].inputs.Resolved? then 0
    else
      var Route(uid, Resolved(f)) := s.routes[k];
      (if Get(s.objects, BackendId(Base(k, f))) == Some(BackendWanted(k, uid, f)) then 0 else 1) +
      (if Get(s.objects, HttpRouteId(Base(k, f))) == Some(HttpRouteWanted(k, uid, f)) then 0 else 1) +
      (if Get(s.objects, PolicyId(Base(k, f))) == WantedPolicy(k, uid, f) then 0 else 1)
  }

  /** With fixed look-ups: the reconcile in flight works on them, and what it has read is
      what is there. */
  predicate Steady(s: State, k: Key) {
    && !(k in s.running && k in s.looking)
    && (k in s.looking ==> LooksForItself(s, k))
    && (k in s.running ==>
          var j := s.running[k];
          && Alive(s, k) && s.routes[k].inputs == Resolved(j.found) && Progress(s, k, j)
          && (Writes(j.pc) ==> ReadAt(j) == Get(s.objects, Touched(k, j))))
  }

  function Rank(s: State, k: Key): nat {
    if k in s.looking then 9
    else if k !in s.running then 0
    else
      match s.running[k].pc
      case GetBackend => 8
      case PutBackend(_) => 7
      case GetHttpRoute => 6
      case PutHttpRoute(_) => 5
      case GetPolicy => 4
      case PutPolicy(_) => 3
      case DeletePolicy => 2
      case Succeeded => 1
  }

  /** Lexicographic: what is wrong, whether the route is queued, what is left of the
      reconcile in flight. */
  function Measure(s: State, k: Key): nat {
    40 * Wrong(s, k) + (if k in s.queued then 15 else 0) + Rank(s, k)
  }

  predicate Settling(s: State, s': State, k: Key) {
    && s'.routes == s.routes && Settleable(s', k) && Steady(s', k) && Measure(s', k) < Measure(s, k)
  }

  /** A successful write leaves exactly what is wanted, and wakes the route only if it has
      changed something. */
  lemma PutDone(s: State, k: Key, id: Id, read: Option<Resource>, want: Resource, next: Pc)
    requires k in s.running && read == Get(s.objects, id) && Free(s, k, id)
    requires want.owner == Self(k, s.running[k])
    ensures var s' := DoPut(s, k, id, read, want, next, Done);
            && s' == s.(objects := s'.objects, queued := s'.queued,
                        running := s.running[k := s.running[k].(pc := next)])
            && s'.objects == s.objects[id := want]
            && (k in s'.queued && k !in s.queued ==> Get(s.objects, id) != Some(want))
  {
    if Get(s.objects, id) == Some(want) { assert s.objects[id := want] == s.objects; }
  }

  lemma BackendSettles(s: State, k: Key)
    requires Settleable(s, k) && Steady(s, k) && k in s.running && s.running[k].pc.PutBackend?
    ensures Settling(s, Advance(s, k, Done), k)
  {
    var Job(uid, f, PutBackend(read)) := s.running[k];
    PutDone(s, k, BackendId(Base(k, f)), read, BackendWanted(k, uid, f), GetHttpRoute);
  }

  lemma HttpRouteSettles(s: State, k: Key)
    requires Settleable(s, k) && Steady(s, k) && k in s.running && s.running[k].pc.PutHttpRoute?
    ensures Settling(s, Advance(s, k, Done), k)
  {
    var Job(uid, f, PutHttpRoute(read)) := s.running[k];
    PutDone(s, k, HttpRouteId(Base(k, f)), read, HttpRouteWanted(k, uid, f), PolicyPhase(f));
  }

  lemma PolicySettles(s: State, k: Key)
    requires Settleable(s, k) && Steady(s, k) && k in s.running && s.running[k].pc.PutPolicy?
    ensures Settling(s, Advance(s, k, Done), k)
  {
    var Job(uid, f, PutPolicy(read)) := s.running[k];
    PutDone(s, k, PolicyId(Base(k, f)), read, PolicyWanted(k, uid, f), Succeeded);
  }

  lemma DeleteSettles(s: State, k: Key)
    requires Settleable(s, k) && Steady(s, k) && k in s.running && s.running[k].pc == DeletePolicy
    ensures Settling(s, Advance(s, k, Done), k)
  {
  }

  lemma ReadSettles(s: State, k: Key)
    requires Settleable(s, k) && Steady(s, k) && k in s.running
    requires var pc := s.running[k].pc; pc.GetBackend? || pc.GetHttpRoute? || pc.GetPolicy? || pc.Succeeded?
    ensures Settling(s, Advance(s, k, Done), k)
  {
  }

  lemma StartSettles(s: State, k: Key)
    requires Settleable(s, k) && Steady(s, k) && Waiting(s, k) && k !in s.running
    ensures Settling(s, Tick(s, k), k)
  {
  }

  lemma TickSettles(s: State, k: Key)
    requires Settleable(s, k) && Steady(s, k) && Waiting(s, k)
    ensures Settling(s, Tick(s, k), k)
  {
    if k !in s.running {
      StartSettles(s, k);
    } else {
      match s.running[k].pc {
        case PutBackend(_) => BackendSettles(s, k);
        case PutHttpRoute(_) => HttpRouteSettles(s, k);
        case PutPolicy(_) => PolicySettles(s, k);
        case DeletePolicy => DeleteSettles(s, k);
        case _ => ReadSettles(s, k);
      }
    }
  }

  /** After n successful steps of the route, or fewer if it rests before. */
  function Ticks(s: State, k: Key, n: nat): State
    decreases n
  {
    if n == 0 || !Waiting(s, k) then s else Ticks(Tick(s, k), k, n - 1)
  }

  lemma {:induction false} TicksSettle(s: State, k: Key, n: nat)
    requires Settleable(s, k) && Steady(s, k) && n >= Measure(s, k)
    ensures !Waiting(Ticks(s, k, n), k)
    decreases n
  {
    if Waiting(s, k) {
      TickSettles(s, k);
      TicksSettle(Tick(s, k), k, n - 1);
    }
  }

  // ------------------------------------------------------------ not settling

  /** An object still to be written is another route's. */
  predicate Taken(s: State, k: Key)
    requires k in s.running
  {
    var Job(_, f, pc) := s.running[k];
    var b, h, p := BackendId(Base(k, f)), HttpRouteId(Base(k, f)), PolicyId(Base(k, f));
    var later := !Free(s, k, h) || (RulesOf(f) != [] && !Free(s, k, p));
    match pc
    case GetBackend => !Free(s, k, b) || later
    case PutBackend(read) => !Free(s, k, b) || later
    case GetHttpRoute => later
    case PutHttpRoute(read) => later
    case GetPolicy => RulesOf(f) != [] && !Free(s, k, p)
    case PutPolicy(read) => RulesOf(f) != [] && !Free(s, k, p)
    case _ => false
  }

  /** An error is bound to come. */
  predicate Blocked(s: State, k: Key) {
    && k in s.routes && !Settleable(s, k) && Waiting(s, k) && !(k in s.running && k in s.looking)
    && (k in s.running ==>
          && s.routes[k].inputs == Resolved(s.running[k].found) && Taken(s, k)
          && (Writes(s.running[k].pc) ==> ReadAt(s.running[k]) == Get(s.objects, Touched(k, s.running[k]))))
  }

  /** A write by the route does not free a name that is another's. */
  lemma PutBlocked(s: State, k: Key, id: Id, read: Option<Resource>, want: Resource, next: Pc, other: Id)
    requires k in s.running && read == Get(s.objects, id) && !Free(s, k, other)
    ensures var s' := DoPut(s, k, id, read, want, next, Done);
            && !Free(s', k, other) && s'.routes == s.routes && s'.looking == s.looking
            && (if k in s'.running then s'.running[k] == s.running[k].(pc := next) && id != other else k in s'.queued)
  {
  }

  lemma TickBlocked(s: State, k: Key)
    requires Blocked(s, k)
    ensures Blocked(Tick(s, k), k)
  {
    if k in s.running {
      if Writes(s.running[k].pc) { WriteBlocked(s, k); } else { ReadBlocked(s, k); }
    }
  }

  lemma ReadBlocked(s: State, k: Key)
    requires Blocked(s, k) && k in s.running && !Writes(s.running[k].pc)
    ensures Blocked(Advance(s, k, Done), k)
  {
  }

  lemma WriteBlocked(s: State, k: Key)
    requires Blocked(s, k) && k in s.running && Writes(s.running[k].pc)
    ensures Blocked(Advance(s, k, Done), k)
  {
    var Job(uid, f, pc) := s.running[k];
    var b, h, p := BackendId(Base(k, f)), HttpRouteId(Base(k, f)), PolicyId(Base(k, f));
    forall id | !Free(s, k, id) ensures !Free(Advance(s, k, Done), k, id) {
      match pc {
        case PutBackend(read) => PutBlocked(s, k, b, read, BackendWanted(k, uid, f), GetHttpRoute, id);
        case PutHttpRoute(read) => PutBlocked(s, k, h, read, HttpRouteWanted(k, uid, f), PolicyPhase(f), id);
        case PutPolicy(read) => PutBlocked(s, k, p, read, PolicyWanted(k, uid, f), Succeeded, id);
      }
    }
    var other := if !Free(s, k, b) then b else if !Free(s, k, h) then h else p;
    match pc {
      case PutBackend(read) => PutBlocked(s, k, b, read, BackendWanted(k, uid, f), GetHttpRoute, other);
      case PutHttpRoute(read) => PutBlocked(s, k, h, read, HttpRouteWanted(k, uid, f), PolicyPhase(f), other);
      case PutPolicy(read) => PutBlocked(s, k, p, read, PolicyWanted(k, uid, f), Succeeded, other);
    }
  }

  lemma {:induction false} NeverRests(s: State, k: Key, n: nat)
    requires Blocked(s, k)
    ensures Waiting(Ticks(s, k, n), k)
    decreases n
  {
    if n > 0 {
      TickBlocked(s, k);
      NeverRests(Tick(s, k), k, n - 1);
    }
  }

  /** Settling if and only if: from any objects, a queued ToolRoute comes to rest exactly
      when it is gone or has no gateway here, or its upstream is there and none of the names
      it needs is controlled by another route: of two routes of the same base name, one
      rests and the other tries for ever.  What it has at rest is said by
      RouteOneWorker.OneWorkerMissesNothing. */
  lemma SettlesIff(s: State, k: Key)
    requires k in s.queued && !InFlight(s, k)
    ensures Settleable(s, k) <==> exists n: nat :: !Waiting(Ticks(s, k, n), k)
  {
    if Settleable(s, k) {
      TicksSettle(s, k, Measure(s, k));
    } else {
      forall n: nat ensures Waiting(Ticks(s, k, n), k) { NeverRests(s, k, n); }
    }
  }
}
