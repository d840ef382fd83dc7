/** Who may change whose objects, over every run of the ToolRoute machine.

    With several reconciles in flight, one can change an object that another existing route
    controls.  The first such change of a run is made by a reconcile whose route is gone, or
    by one that adopts a backend left over from an earlier ToolRoute of its own name, while
    that backend is collected and made anew by the other route between its read and its
    patch (`Steals`).  With one in flight at a time it never happens: see RouteOneWorker. */
module RouteOwnership {
  import opened Wrappers
  import opened Objects
  import opened Api
  import opened RouteMachine

  // ---------------------------------------------------------- one call, exactly

  /** The only object a call of the reconcile can change. */
  function Touched(k: Key, j: Job): Id {
    var base := Base(k, j.found);
    match j.pc
    case GetBackend => BackendId(base)
    case PutBackend(_) => BackendId(base)
    case GetHttpRoute => HttpRouteId(base)
    case PutHttpRoute(_) => HttpRouteId(base)
    case _ => PolicyId(base)
  }

  function WantedAt(k: Key, j: Job): Resource {
    match j.pc
    case GetBackend => BackendWanted(k, j.uid, j.found)
    case PutBackend(_) => BackendWanted(k, j.uid, j.found)
    case GetHttpRoute => HttpRouteWanted(k, j.uid, j.found)
    case PutHttpRoute(_) => HttpRouteWanted(k, j.uid, j.found)
    case _ => PolicyWanted(k, j.uid, j.found)
  }

  function Self(k: Key, j: Job): Option<ControllerRef> { Some(ControllerRef(k, j.uid)) }

  predicate Writes(pc: Pc) {
    pc.PutBackend? || pc.PutHttpRoute? || pc.PutPolicy?
  }

  function ReadAt(j: Job): Option<Resource>
    requires Writes(j.pc)
  {
    j.pc.read
  }

  /** The next call is a patch, of an object read as controlled by a route of this name,
      and takes effect if the object is there. */
  predicate Patches(s: State, k: Key, r: Reply)
    requires k in s.running
  {
    var j := s.running[k];
    && Writes(j.pc) && ReadAt(j).Some? && MayControl(k, ReadAt(j).value)
    && ReadAt(j).value != WantedAt(k, j) && r != Refused
  }

  predicate Harms(s: State, k: Key, r: Reply, id: Id, other: Key)
    requires k in s.running
  {
    other != k && HeldBy(s, id, other) && Get(Advance(s, k, r).objects, id) != Get(s.objects, id)
  }

  /** Exactly which calls change an object that another existing route controls, in any
      state: a by-name delete of its policy that takes effect; or a patch computed from
      an earlier read of an object of one's own name, which sends the owner, or a content
      that is not there already. */
  lemma HarmIff(s: State, k: Key, r: Reply, id: Id, other: Key)
    requires k in s.running && other != k && HeldBy(s, id, other)
    ensures var j := s.running[k];
            Harms(s, k, r, id, other) <==>
              && id == Touched(k, j)
              && ((j.pc.DeletePolicy? && r != Refused)
                  || (Patches(s, k, r)
                      && (ReadAt(j).value.owner != Self(k, j)
                          || (ReadAt(j).value.content != WantedAt(k, j).content
                              && s.objects[id].content != WantedAt(k, j).content))))
  {
  }

  /** A patch that takes an object over from another existing route: what was read was
      controlled by an earlier route of this name, and is now the other's. */
  predicate Steals(s: State, k: Key, r: Reply)
    requires k in s.running
  {
    var j := s.running[k];
    && Patches(s, k, r) && ReadAt(j).value.owner != Self(k, j)
    && Touched(k, j) in s.objects && s.objects[Touched(k, j)].owner.Some?
    && var other := s.objects[Touched(k, j)].owner.value.route;
       other != k && HeldBy(s, Touched(k, j), other)
  }

  // ---------------------------------------------------------------- invariant

  /** Per base name: the route that controls the policy controls the HTTPRoute, and the
      route that controls the HTTPRoute controls the backend. */
  predicate Aligned(s: State, base: Key) {
    && (forall k | k in s.routes :: HeldBy(s, PolicyId(base), k) ==> HeldBy(s, HttpRouteId(base), k))
    && (forall k | k in s.routes :: HeldBy(s, HttpRouteId(base), k) ==> HeldBy(s, BackendId(base), k))
  }

  /** An object read as one's own is still one's own. */
  predicate StillOwn(s: State, k: Key, j: Job, id: Id, read: Option<Resource>) {
    read.Some? && read.value.owner == Self(k, j) ==> HeldBy(s, id, k)
  }

  /** What the reconcile of an existing route has secured so far. */
  predicate Secured(s: State, k: Key, j: Job) {
    var b, h := BackendId(Base(k, j.found)), HttpRouteId(Base(k, j.found));
    match j.pc
    case GetBackend => true
    case PutBackend(read) => StillOwn(s, k, j, b, read)
    case GetHttpRoute => HeldBy(s, b, k)
    case PutHttpRoute(read) => HeldBy(s, b, k) && StillOwn(s, k, j, h, read)
    case _ => HeldBy(s, b, k) && HeldBy(s, h, k)
  }

  ghost predicate HoldsNothing(s: State, k: Key) {
    forall id :: !HeldBy(s, id, k)
  }

  /** The reconcile of an existing route has secured what it should have of the base name;
      while an old reconcile of `k` is in flight, a new ToolRoute `k` controls nothing. */
  ghost predicate JobOk(s: State, base: Key, k: Key)
    requires k in s.running
  {
    if Alive(s, k) then Base(k, s.running[k].found) == base ==> Secured(s, k, s.running[k])
    else HoldsNothing(s, k)
  }

  predicate LooksForItself(s: State, k: Key)
    requires k in s.looking
  {
    k in s.routes && s.looking[k] == s.routes[k].uid
  }

  /** Every object has a controller, and every UID has been given out. */
  predicate UidsBelow(s: State) {
    && (forall k | k in s.routes :: s.routes[k].uid < s.next)
    && (forall k | k in s.running :: s.running[k].uid < s.next)
    && (forall k | k in s.looking :: s.looking[k] < s.next)
    && (forall id | id in s.objects :: s.objects[id].owner.Some? && s.objects[id].owner.value.uid < s.next)
  }

  /** The ownership invariant of one base name. */
  ghost predicate InvAt(s: State, base: Key) {
    && UidsBelow(s) && Aligned(s, base)
    && (forall k | k in s.running :: JobOk(s, base, k) && k !in s.looking)
    && (forall k | k in s.looking :: !LooksForItself(s, k) ==> HoldsNothing(s, k))
  }

  ghost predicate Inv(s: State) {
    forall base :: InvAt(s, base)
  }

  // ------------------------------------------------------------ effect of a call

  /** The routes, the other reconciles and all objects but `id` are as before, and nobody
      is taken off the queue. */
  predicate Framed(s: State, s': State, k: Key, id: Id)
    requires k in s.running
  {
    && s'.routes == s.routes && s'.next == s.next && s'.looking == s.looking
    && s'.running - {k} == s.running - {k}
    && (k in s'.running ==> s'.running[k] == s.running[k].(pc := s'.running[k].pc))
    && s.queued <= s'.queued
    && s'.objects - {id} == s.objects - {id}
  }

  lemma GotoFrame(s: State, s': State, k: Key, id: Id, pc: Pc)
    requires k in s.running && s'.routes == s.routes && s'.next == s.next && s'.looking == s.looking
    requires s'.objects - {id} == s.objects - {id} && s.queued <= s'.queued
    requires s'.running == s.running[k := s.running[k].(pc := pc)] || s'.running == s.running - {k}
    ensures Framed(s, s', k, id)
  {
  }

  lemma WithObjectFrame(s: State, id: Id, x: Option<Resource>)
    ensures var s' := WithObject(s, id, x);
            && s' == s.(objects := s'.objects, queued := s'.queued)
            && s'.objects - {id} == s.objects - {id} && s.queued <= s'.queued
  {
  }

  lemma PutFrame(s: State, k: Key, id: Id, read: Option<Resource>, want: Resource, next: Pc, r: Reply)
    requires k in s.running
    ensures Framed(s, DoPut(s, k, id, read, want, next, r), k, id)
    ensures var s' := DoPut(s, k, id, read, want, next, r); k in s'.running ==> s'.running[k].pc == next
  {
    var put := PutOf(k, read, want, Get(s.objects, id), r);
    if put.Stored? { WithObjectFrame(s, id, Some(put.r)); }
    GotoFrame(s, DoPut(s, k, id, read, want, next, r), k, id, next);
  }

  /** A call leaves the routes, the other reconciles and all objects but one alone. */
  lemma CallFrame(s: State, k: Key, r: Reply)
    requires k in s.running
    ensures Framed(s, Advance(s, k, r), k, Touched(k, s.running[k]))
  {
    var j := s.running[k];
    match j.pc {
      case PutBackend(read) => PutFrame(s, k, Touched(k, j), read, WantedAt(k, j), GetHttpRoute, r);
      case PutHttpRoute(read) => PutFrame(s, k, Touched(k, j), read, WantedAt(k, j), PolicyPhase(j.found), r);
      case PutPolicy(read) => PutFrame(s, k, Touched(k, j), read, WantedAt(k, j), Succeeded, r);
      case DeletePolicy =>
        WithObjectFrame(s, Touched(k, j), None);
        GotoFrame(s, Advance(s, k, r), k, Touched(k, j), Succeeded);
      case _ =>
    }
  }

  lemma Untouched(s: State, k: Key, r: Reply, id: Id)
    requires k in s.running && id != Touched(k, s.running[k])
    ensures Get(Advance(s, k, r).objects, id) == Get(s.objects, id)
  {
    CallFrame(s, k, r);
    var a, b := Advance(s, k, r).objects - {Touched(k, s.running[k])}, s.objects - {Touched(k, s.running[k])};
    assert a == b && (id in a <==> id in Advance(s, k, r).objects) && (id in b <==> id in s.objects);
    if id in b { assert a[id] == b[id]; }
  }

  lemma PutEffect(s: State, k: Key, id: Id, read: Option<Resource>, want: Resource, next: Pc, r: Reply)
    requires k in s.running
    ensures var before, after := Get(s.objects, id), Get(DoPut(s, k, id, read, want, next, r).objects, id);
            || after == before
            || (after == Some(want) && before.None? && read.None?)
            || (after.Some? && before.Some? && read.Some? && MayControl(k, read.value) && read.value != want
                && r != Refused && after.value.owner == Patched(read.value.owner, want.owner, before.value.owner))
  {
  }

  /** What a call makes of the object it touches. */
  lemma CallEffect(s: State, k: Key, r: Reply)
    requires k in s.running
    ensures var s', j := Advance(s, k, r), s.running[k];
            var before, after := Get(s.objects, Touched(k, j)), Get(s'.objects, Touched(k, j));
            || after == before
            || (after == None && j.pc.DeletePolicy?)
            || (Writes(j.pc) && ReadAt(j).None? && before.None? && after == Some(WantedAt(k, j)))
            || (after.Some? && before.Some? && Patches(s, k, r)
                && after.value.owner == Patched(ReadAt(j).value.owner, Self(k, j), before.value.owner))
  {
    var j := s.running[k];
    match j.pc {
      case PutBackend(read) => PutEffect(s, k, Touched(k, j), read, WantedAt(k, j), GetHttpRoute, r);
      case PutHttpRoute(read) => PutEffect(s, k, Touched(k, j), read, WantedAt(k, j), PolicyPhase(j.found), r);
      case PutPolicy(read) => PutEffect(s, k, Touched(k, j), read, WantedAt(k, j), Succeeded, r);
      case _ =>
    }
  }

  /** A call makes no other route control anything more. */
  lemma OthersGainNothing(s: State, k: Key, r: Reply, id: Id, o: Key)
    requires k in s.running && o != k && HeldBy(Advance(s, k, r), id, o)
    ensures HeldBy(s, id, o)
  {
    CallFrame(s, k, r);
    CallEffect(s, k, r);
    if id != Touched(k, s.running[k]) { Untouched(s, k, r, id); }
  }

  /** Nor does it, if the route of the reconcile is gone, to a new route of its name. */
  lemma DeadGainNothing(s: State, k: Key, r: Reply, id: Id)
    requires k in s.running && !Alive(s, k) && HeldBy(Advance(s, k, r), id, k)
    ensures HeldBy(s, id, k)
  {
    CallFrame(s, k, r);
    CallEffect(s, k, r);
    if id != Touched(k, s.running[k]) { Untouched(s, k, r, id); }
  }

  /** Without stealing, what a route controls it still controls, but for a policy deleted
      by name. */
  lemma OthersKeep(s: State, k: Key, r: Reply, id: Id, o: Key)
    requires k in s.running && !Steals(s, k, r) && o != k && HeldBy(s, id, o)
    ensures HeldBy(Advance(s, k, r), id, o)
            || (s.running[k].pc.DeletePolicy? && id == PolicyId(Base(k, s.running[k].found)))
  {
    CallFrame(s, k, r);
    CallEffect(s, k, r);
    if id != Touched(k, s.running[k]) { Untouched(s, k, r, id); }
  }

  /** The reconcile of an existing route keeps what it has, but for the policy. */
  lemma OwnKept(s: State, k: Key, r: Reply, id: Id)
    requires Alive(s, k) && Secured(s, k, s.running[k]) && HeldBy(s, id, k)
    ensures var j := s.running[k];
            HeldBy(Advance(s, k, r), id, k) || (j.pc.DeletePolicy? && id == PolicyId(Base(k, j.found)))
  {
    CallFrame(s, k, r);
    CallEffect(s, k, r);
    if id != Touched(k, s.running[k]) { Untouched(s, k, r, id); }
  }

  /** A write after which the reconcile goes on has the object. */
  lemma PutSecures(s: State, k: Key, id: Id, read: Option<Resource>, want: Resource, next: Pc, r: Reply)
    requires Alive(s, k) && want.owner == Self(k, s.running[k]) && StillOwn(s, k, s.running[k], id, read)
    ensures var s' := DoPut(s, k, id, read, want, next, r);
            k in s'.running ==> s'.running[k].pc == next && HeldBy(s', id, k)
  {
  }

  /** And it gains what it has secured. */
  lemma OwnSecured(s: State, k: Key, r: Reply)
    requires Alive(s, k) && Secured(s, k, s.running[k]) && k in Advance(s, k, r).running
    ensures Secured(Advance(s, k, r), k, Advance(s, k, r).running[k])
  {
    CallFrame(s, k, r);
    var j := s.running[k];
    if HeldBy(s, BackendId(Base(k, j.found)), k) { OwnKept(s, k, r, BackendId(Base(k, j.found))); }
    if HeldBy(s, HttpRouteId(Base(k, j.found)), k) { OwnKept(s, k, r, HttpRouteId(Base(k, j.found))); }
    match j.pc {
      case PutBackend(read) => PutSecures(s, k, Touched(k, j), read, WantedAt(k, j), GetHttpRoute, r);
      case PutHttpRoute(read) => PutSecures(s, k, Touched(k, j), read, WantedAt(k, j), PolicyPhase(j.found), r);
      case PutPolicy(read) => assert Advance(s, k, r).running[k].pc == Succeeded;
      case _ =>
    }
  }

  /** What an existing route comes to control by its own call. */
  lemma OwnGained(s: State, k: Key, r: Reply, id: Id)
    requires k in s.running && HeldBy(Advance(s, k, r), id, k) && !HeldBy(s, id, k)
    ensures Alive(s, k) && id == Touched(k, s.running[k]) && Writes(s.running[k].pc)
  {
    if !Alive(s, k) { DeadGainNothing(s, k, r, id); }
    CallFrame(s, k, r);
    CallEffect(s, k, r);
    if id != Touched(k, s.running[k]) { Untouched(s, k, r, id); }
  }

  /** The call takes nothing of this base name over. */
  predicate SparesBase(s: State, k: Key, r: Reply, base: Key)
    requires k in s.running
  {
    Steals(s, k, r) ==> Base(k, s.running[k].found) != base
  }

  predicate IdOf(base: Key, id: Id) {
    id == BackendId(base) || id == HttpRouteId(base) || id == PolicyId(base)
  }

  /** What others control of the base name they keep, but for a policy deleted by name. */
  lemma OthersKeepAt(s: State, k: Key, r: Reply, base: Key, id: Id, o: Key)
    requires k in s.running && SparesBase(s, k, r, base) && IdOf(base, id) && o != k && HeldBy(s, id, o)
    ensures HeldBy(Advance(s, k, r), id, o)
            || (s.running[k].pc.DeletePolicy? && Base(k, s.running[k].found) == base && id == PolicyId(base))
  {
    var own := Base(k, s.running[k].found);
    if PolicyId(own) == PolicyId(base) { PolicyIdInjective(own, base); }
    if own == base {
      OthersKeep(s, k, r, id, o);
    } else {
      CallFrame(s, k, r);
      Untouched(s, k, r, id);
    }
  }

  lemma CallAligned(s: State, k: Key, r: Reply, base: Key)
    requires InvAt(s, base) && k in s.running && SparesBase(s, k, r, base)
    ensures Aligned(Advance(s, k, r), base)
  {
    var s' := Advance(s, k, r);
    CallFrame(s, k, r);
    var b, h, p := BackendId(base), HttpRouteId(base), PolicyId(base);
    forall o | o in s'.routes
      ensures HeldBy(s', p, o) ==> HeldBy(s', h, o)
      ensures HeldBy(s', h, o) ==> HeldBy(s', b, o)
    {
      if o == k {
        OwnAligned(s, k, r, base);
      } else {
        if HeldBy(s', p, o) { OthersGainNothing(s, k, r, p, o); }
        if HeldBy(s', h, o) { OthersGainNothing(s, k, r, h, o); }
        if HeldBy(s, h, o) { OthersKeepAt(s, k, r, base, h, o); }
        if HeldBy(s, b, o) { OthersKeepAt(s, k, r, base, b, o); }
      }
    }
  }

  lemma OwnAligned(s: State, k: Key, r: Reply, base: Key)
    requires InvAt(s, base) && k in s.running && k in s.routes
    ensures var s' := Advance(s, k, r);
            && (HeldBy(s', PolicyId(base), k) ==> HeldBy(s', HttpRouteId(base), k))
            && (HeldBy(s', HttpRouteId(base), k) ==> HeldBy(s', BackendId(base), k))
  {
    var s', j := Advance(s, k, r), s.running[k];
    var own := Base(k, j.found);
    CallFrame(s, k, r);
    assert JobOk(s, base, k);
    if PolicyId(base) == PolicyId(own) { PolicyIdInjective(base, own); }
    if !Alive(s, k) {
      if HeldBy(s', PolicyId(base), k) { DeadGainNothing(s, k, r, PolicyId(base)); }
      if HeldBy(s', HttpRouteId(base), k) { DeadGainNothing(s, k, r, HttpRouteId(base)); }
    } else if own != base {
      Untouched(s, k, r, BackendId(base));
      Untouched(s, k, r, HttpRouteId(base));
      Untouched(s, k, r, PolicyId(base));
    } else {
      OwnBaseAligned(s, k, r);
    }
  }

  lemma OwnBaseAligned(s: State, k: Key, r: Reply)
    requires Alive(s, k) && Secured(s, k, s.running[k]) && Aligned(s, Base(k, s.running[k].found))
    ensures var s', base := Advance(s, k, r), Base(k, s.running[k].found);
            && (HeldBy(s', PolicyId(base), k) ==> HeldBy(s', HttpRouteId(base), k))
            && (HeldBy(s', HttpRouteId(base), k) ==> HeldBy(s', BackendId(base), k))
  {
    var s', base := Advance(s, k, r), Base(k, s.running[k].found);
    var b, h, p := BackendId(base), HttpRouteId(base), PolicyId(base);
    if HeldBy(s', p, k) && !HeldBy(s, p, k) { OwnGained(s, k, r, p); }
    if HeldBy(s', h, k) && !HeldBy(s, h, k) { OwnGained(s, k, r, h); }
    if HeldBy(s, h, k) { OwnKept(s, k, r, h); }
    if HeldBy(s, b, k) { OwnKept(s, k, r, b); }
  }

  lemma OtherJobOk(s: State, k: Key, r: Reply, base: Key, o: Key)
    requires InvAt(s, base) && k in s.running && o in s.running && o != k && SparesBase(s, k, r, base)
    ensures o in Advance(s, k, r).running && JobOk(Advance(s, k, r), base, o)
  {
    var s' := Advance(s, k, r);
    CallFrame(s, k, r);
    assert o in s'.running - {k} && (s'.running - {k})[o] == (s.running - {k})[o];
    assert JobOk(s, base, o);
    if !Alive(s, o) {
      HoldsNothingStill(s, k, r, o);
    } else if Base(o, s.running[o].found) == base {
      if HeldBy(s, BackendId(base), o) { OthersKeepAt(s, k, r, base, BackendId(base), o); }
      if HeldBy(s, HttpRouteId(base), o) { OthersKeepAt(s, k, r, base, HttpRouteId(base), o); }
    }
  }

  lemma HoldsNothingStill(s: State, k: Key, r: Reply, o: Key)
    requires k in s.running && HoldsNothing(s, o) && (o == k ==> !Alive(s, k))
    ensures HoldsNothing(Advance(s, k, r), o)
  {
    forall id ensures !HeldBy(Advance(s, k, r), id, o) {
      if HeldBy(Advance(s, k, r), id, o) {
        if o == k { DeadGainNothing(s, k, r, id); } else { OthersGainNothing(s, k, r, id, o); }
      }
    }
  }

  lemma OwnJobOk(s: State, k: Key, r: Reply, base: Key)
    requires InvAt(s, base) && k in s.running && k in Advance(s, k, r).running
    ensures JobOk(Advance(s, k, r), base, k)
  {
    CallFrame(s, k, r);
    assert JobOk(s, base, k);
    if !Alive(s, k) {
      HoldsNothingStill(s, k, r, k);
    } else if Base(k, s.running[k].found) == base {
      OwnSecured(s, k, r);
    }
  }

  lemma CallUids(s: State, k: Key, r: Reply)
    requires UidsBelow(s) && k in s.running
    ensures UidsBelow(Advance(s, k, r))
  {
    var s' := Advance(s, k, r);
    CallFrame(s, k, r);
    CallEffect(s, k, r);
    forall o | o in s'.running ensures s'.running[o].uid < s'.next {
      if o != k { assert o in s'.running - {k} && (s'.running - {k})[o] == (s.running - {k})[o]; }
    }
    forall id | id in s'.objects
      ensures s'.objects[id].owner.Some? && s'.objects[id].owner.value.uid < s'.next
    {
      if id != Touched(k, s.running[k]) { Untouched(s, k, r, id); }
    }
  }

  lemma CallKeeps(s: State, k: Key, r: Reply, base: Key)
    requires InvAt(s, base) && k in s.running && SparesBase(s, k, r, base)
    ensures InvAt(Advance(s, k, r), base)
  {
    var s' := Advance(s, k, r);
    CallUids(s, k, r);
    CallFrame(s, k, r);
    CallAligned(s, k, r, base);
    forall o | o in s'.running ensures JobOk(s', base, o) && o !in s'.looking {
      if o == k {
        OwnJobOk(s, k, r, base);
      } else {
        assert o in s'.running - {k};
        OtherJobOk(s, k, r, base, o);
      }
    }
    forall o | o in s'.looking && !LooksForItself(s', o) ensures HoldsNothing(s', o) {
      HoldsNothingStill(s, k, r, o);
    }
  }

  /** Outside of calls nobody comes to control anything, and only what is not controlled
      by an existing route disappears. */
  lemma ClusterHoldings(s: State, e: Event, id: Id, o: Key)
    requires UidsBelow(s) && Enabled(s, e) && !e.Call?
    ensures HeldBy(Apply(s, e), id, o) ==> HeldBy(s, id, o)
    ensures HeldBy(s, id, o) && e != DeleteRoute(o) ==> HeldBy(Apply(s, e), id, o)
  {
  }

  lemma ClusterHoldsNothing(s: State, e: Event, o: Key)
    requires UidsBelow(s) && Enabled(s, e) && !e.Call?
    requires HoldsNothing(s, o) || o !in Apply(s, e).routes || Apply(s, e).routes[o].uid == s.next
    ensures HoldsNothing(Apply(s, e), o)
  {
    forall id ensures !HeldBy(Apply(s, e), id, o) { ClusterHoldings(s, e, id, o); }
  }

  lemma ClusterJobOk(s: State, e: Event, base: Key, o: Key)
    requires InvAt(s, base) && Enabled(s, e) && !e.Call? && o in s.running
    ensures o in Apply(s, e).running && JobOk(Apply(s, e), base, o)
  {
    var s' := Apply(s, e);
    assert s'.running[o] == s.running[o] && JobOk(s, base, o);
    ClusterHoldings(s, e, BackendId(base), o);
    ClusterHoldings(s, e, HttpRouteId(base), o);
    if !Alive(s', o) { ClusterHoldsNothing(s, e, o); }
  }

  lemma NewJobOk(s: State, e: Event, base: Key, o: Key)
    requires InvAt(s, base) && Enabled(s, e) && !e.Call? && o !in s.running && o in Apply(s, e).running
    ensures JobOk(Apply(s, e), base, o)
  {
    assert e.LookUp? && e.route == o;
    if !LooksForItself(s, o) { ClusterHoldsNothing(s, e, o); }
  }

  lemma ClusterAligned(s: State, e: Event, base: Key)
    requires UidsBelow(s) && Aligned(s, base) && Enabled(s, e) && !e.Call?
    ensures Aligned(Apply(s, e), base)
  {
    var s' := Apply(s, e);
    forall o | o in s'.routes
      ensures HeldBy(s', PolicyId(base), o) ==> HeldBy(s', HttpRouteId(base), o)
      ensures HeldBy(s', HttpRouteId(base), o) ==> HeldBy(s', BackendId(base), o)
    {
      ClusterHoldings(s, e, PolicyId(base), o);
      ClusterHoldings(s, e, HttpRouteId(base), o);
      ClusterHoldings(s, e, BackendId(base), o);
    }
  }

  /** A reconcile at its look-ups stays as it is, or has just started, or is done with them. */
  lemma LookingFrame(s: State, e: Event, o: Key)
    requires Enabled(s, e) && !e.Call?
    ensures var s' := Apply(s, e);
            && (o in s'.looking ==> if o in s.looking then s'.looking[o] == s.looking[o] && !(e.LookUp? && e.route == o)
                                    else LooksForItself(s', o) && o !in s.running)
            && (o in s'.running && o !in s.running ==> e.LookUp? && e.route == o)
  {
  }

  /** A route keeps its UID, or is new. */
  lemma UidFrame(s: State, e: Event, o: Key)
    requires Enabled(s, e) && !e.Call? && o in Apply(s, e).routes
    ensures (o in s.routes && Apply(s, e).routes[o].uid == s.routes[o].uid) || Apply(s, e).routes[o].uid == s.next
  {
  }

  lemma ClusterLooking(s: State, e: Event, base: Key, o: Key)
    requires InvAt(s, base) && Enabled(s, e) && !e.Call? && o in Apply(s, e).looking
    ensures !LooksForItself(Apply(s, e), o) ==> HoldsNothing(Apply(s, e), o)
    ensures o !in Apply(s, e).running
  {
    LookingFrame(s, e, o);
    if !LooksForItself(Apply(s, e), o) {
      if o in Apply(s, e).routes { UidFrame(s, e, o); }
      ClusterHoldsNothing(s, e, o);
    }
  }

  lemma ClusterUids(s: State, e: Event)
    requires UidsBelow(s) && Enabled(s, e) && !e.Call?
    ensures UidsBelow(Apply(s, e))
  {
  }

  /** Routes created, edited and deleted, objects collected, reconciles started. */
  lemma ClusterKeeps(s: State, e: Event, base: Key)
    requires InvAt(s, base) && Enabled(s, e) && !e.Call?
    ensures InvAt(Apply(s, e), base)
  {
    var s' := Apply(s, e);
    ClusterUids(s, e);
    ClusterAligned(s, e, base);
    forall o | o in s'.looking
      ensures !LooksForItself(s', o) ==> HoldsNothing(s', o)
      ensures o !in s'.running
    {
      ClusterLooking(s, e, base, o);
    }
    forall o | o in s'.running ensures JobOk(s', base, o) {
      if o in s.running { ClusterJobOk(s, e, base, o); } else { NewJobOk(s, e, base, o); }
    }
  }

  /** Event i of the run takes an object of this base name over. */
  predicate StealsAt(ss: seq<State>, es: seq<Event>, i: nat, base: Key)
    requires i < |ss| && i < |es|
  {
    && es[i].Call? && es[i].route in ss[i].running
    && Steals(ss[i], es[i].route, es[i].reply) && Base(es[i].route, ss[i].running[es[i].route].found) == base
  }

  /** Nothing of this base name has been taken over so far. */
  predicate NoTheft(ss: seq<State>, es: seq<Event>, base: Key, n: nat)
    requires n < |ss| == |es| + 1
  {
    forall i | 0 <= i < n :: !StealsAt(ss, es, i, base)
  }

  lemma {:induction false} RunKeeps(ss: seq<State>, es: seq<Event>, base: Key, n: nat)
    requires Run(ss, es) && n < |ss| && NoTheft(ss, es, base, n)
    ensures InvAt(ss[n], base)
    decreases n
  {
    if n > 0 {
      RunKeeps(ss, es, base, n - 1);
      assert StepAt(ss, es, n - 1) && !StealsAt(ss, es, n - 1, base);
      var e := es[n - 1];
      if e.Call? {
        CallKeeps(ss[n - 1], e.route, e.reply, base);
      } else {
        ClusterKeeps(ss[n - 1], e, base);
      }
    }
  }

  /** If the object exists, no route but `k` controls it. */
  predicate NoOtherHolds(s: State, k: Key, id: Id) {
    id in s.objects && s.objects[id].owner.Some? ==>
      s.objects[id].owner.value.route == k || !HeldBy(s, id, s.objects[id].owner.value.route)
  }

  // ------------------------------------------------------------- main results

  lemma LiveCall(s: State, k: Key, r: Reply, id: Id, other: Key)
    requires Alive(s, k) && InvAt(s, Base(k, s.running[k].found)) && other != k && HeldBy(s, id, other)
    ensures Harms(s, k, r, id, other) <==> id == Touched(k, s.running[k]) && Steals(s, k, r)
    ensures Steals(s, k, r) ==> s.running[k].pc.PutBackend?
  {
    assert JobOk(s, Base(k, s.running[k].found), k);
    HarmIff(s, k, r, id, other);
  }

  /** Ownership with any number of reconciles in flight, over every run.  As long as nothing
      of its base name was taken over: a reconcile whose route exists changes or deletes an
      object of another existing route if and only if it adopts a leftover that has become
      the other's, and that is a backend. */
  lemma OwnershipHolds(ss: seq<State>, es: seq<Event>, n: nat, k: Key, r: Reply, id: Id, other: Key)
    requires Run(ss, es) && n < |ss| && Alive(ss[n], k) && NoTheft(ss, es, Base(k, ss[n].running[k].found), n)
    requires other != k && HeldBy(ss[n], id, other)
    ensures Get(Advance(ss[n], k, r).objects, id) != Get(ss[n].objects, id)
            <==> id == Touched(k, ss[n].running[k]) && Steals(ss[n], k, r)
    ensures Steals(ss[n], k, r) ==> ss[n].running[k].pc.PutBackend?
  {
    RunKeeps(ss, es, Base(k, ss[n].running[k].found), n);
    LiveCall(ss[n], k, r, id, other);
  }

  ghost predicate HarmsSomeone(s: State, e: Event) {
    e.Call? && e.route in s.running && exists id, other :: Harms(s, e.route, e.reply, id, other)
  }

  lemma TheftIsHarm(s: State, k: Key, r: Reply)
    requires k in s.running && Steals(s, k, r)
    ensures HarmsSomeone(s, Call(k, r))
  {
    var id := Touched(k, s.running[k]);
    var other := s.objects[id].owner.value.route;
    HarmIff(s, k, r, id, other);
    assert Harms(s, k, r, id, other);
  }

  /** With no assumption on the run: the first call that changes an object controlled by
      another existing route is made by a reconcile whose route is gone, or takes over a
      backend of which an earlier ToolRoute of the caller's name left one behind. */
  lemma FirstHarm(ss: seq<State>, es: seq<Event>, n: nat)
    requires Run(ss, es) && n < |es| && HarmsSomeone(ss[n], es[n])
    requires forall i | 0 <= i < n :: !HarmsSomeone(ss[i], es[i])
    ensures !Alive(ss[n], es[n].route) || (Steals(ss[n], es[n].route, es[n].reply)
                                           && ss[n].running[es[n].route].pc.PutBackend?)
  {
    var k, r := es[n].route, es[n].reply;
    var base := Base(k, ss[n].running[k].found);
    forall i | 0 <= i < n ensures !StealsAt(ss, es, i, base) {
      if StealsAt(ss, es, i, base) { TheftIsHarm(ss[i], es[i].route, es[i].reply); }
    }
    var id, other :| Harms(ss[n], k, r, id, other);
    if Alive(ss[n], k) { OwnershipHolds(ss, es, n, k, r, id, other); }
  }

  /** The route that controls the policy of a base name controls the HTTPRoute and the
      backend, as long as nothing of this base name was taken over. */
  lemma PolicyControllerOwnsAll(ss: seq<State>, es: seq<Event>, n: nat, base: Key, o: Key)
    requires Run(ss, es) && n < |ss| && NoTheft(ss, es, base, n)
    ensures HeldBy(ss[n], PolicyId(base), o) ==> HeldBy(ss[n], HttpRouteId(base), o)
    ensures HeldBy(ss[n], HttpRouteId(base), o) ==> HeldBy(ss[n], BackendId(base), o)
  {
    RunKeeps(ss, es, base, n);
  }

  /** A reconcile that reaches the policy controls the backend and the HTTPRoute of its
      base name, if its route exists. */
  lemma PolicyStepOwnsBase(ss: seq<State>, es: seq<Event>, n: nat, k: Key)
    requires Run(ss, es) && n < |ss| && Alive(ss[n], k) && NoTheft(ss, es, Base(k, ss[n].running[k].found), n)
    requires var pc := ss[n].running[k].pc; pc.DeletePolicy? || pc.GetPolicy? || pc.PutPolicy? || pc.Succeeded?
    ensures var base := Base(k, ss[n].running[k].found);
            HeldBy(ss[n], BackendId(base), k) && HeldBy(ss[n], HttpRouteId(base), k)
  {
    RunKeeps(ss, es, Base(k, ss[n].running[k].found), n);
    assert JobOk(ss[n], Base(k, ss[n].running[k].found), k);
  }

  /** Of two existing routes with the same base name at most one can have a reconcile
      past the backend, so at most one gets as far as success. */
  lemma OneWinner(ss: seq<State>, es: seq<Event>, n: nat, a: Key, b: Key)
    requires Run(ss, es) && n < |ss| && Alive(ss[n], a) && Alive(ss[n], b)
    requires Base(a, ss[n].running[a].found) == Base(b, ss[n].running[b].found)
    requires NoTheft(ss, es, Base(a, ss[n].running[a].found), n)
    requires !ss[n].running[a].pc.GetBackend? && !ss[n].running[a].pc.PutBackend?
    requires !ss[n].running[b].pc.GetBackend? && !ss[n].running[b].pc.PutBackend?
    ensures a == b
  {
    var base := Base(a, ss[n].running[a].found);
    RunKeeps(ss, es, base, n);
    assert JobOk(ss[n], base, a) && JobOk(ss[n], base, b);
  }
}
