/** The writing half of the ToolRoute reconciler in the form of its source: backend,
    HTTPRoute, policy, in this order, with early exits.  Every method is a run of the
    machine of RouteMachine, with the other routes' reconciles left where they are. */
module RouteReconciler {
  import opened Wrappers
  import opened Objects
  import opened Api
  import opened Replay
  import ToolFilter
  import opened RouteMachine

  /** A write does not depend on where its reconcile stands. */
  lemma DoPutAnywhere(s: State, k: Key, pc: Pc, id: Id, read: Option<Resource>, want: Resource, next: Pc, r: Reply)
    requires k in s.running
    ensures DoPut(Goto(s, k, pc), k, id, read, want, next, r) == DoPut(s, k, id, read, want, next, r)
  {
    var t := Goto(s, k, pc);
    assert t.running - {k} == s.running - {k};
    assert t.running[k := t.running[k].(pc := next)] == s.running[k := s.running[k].(pc := next)];
  }

  /** A read followed by a write. */
  lemma ReadThenPut(s: State, k: Key, pc: Pc, id: Id, read: Option<Resource>, want: Resource, next: Pc, w: Reply)
    requires k in s.running && Advance(s, k, Done) == Goto(s, k, pc)
    requires Advance(Goto(s, k, pc), k, w) == DoPut(Goto(s, k, pc), k, id, read, want, next, w)
    ensures Play(Writing(k), s, [Done, w]) == DoPut(s, k, id, read, want, next, w)
  {
    PlayTwo(Writing(k), s, Done, w);
    DoPutAnywhere(s, k, pc, id, read, want, next, w);
  }

  class Reconciler {
    var routes: map<Key, Route>
    var next: nat
    var objects: map<Id, Resource>
    var queued: set<Key>
    const looking: map<Key, nat>  // reconciles of other routes in flight
    const others: map<Key, Job>

    constructor (routes: map<Key, Route>, next: nat, looking: map<Key, nat>, others: map<Key, Job>)
      ensures this.looking == looking && this.others == others
      ensures Idle() == State(routes, next, map[], routes.Keys, looking, others)
    {
      this.looking := looking;
      this.routes := routes;
      this.next := next;
      this.others := others;
      queued := routes.Keys;
      objects := map[];
    }

    /** The machine state with only the other reconciles in flight. */
    ghost function Idle(): State
      reads this
    {
      State(routes, next, objects, queued, looking, others)
    }

    /** The machine state with `k` in flight on `j`. */
    ghost function View(k: Key, j: Job): State
      reads this
    {
      State(routes, next, objects, queued, looking, others[k := j])
    }

    /** The machine state after the reconcile of `k` has returned an error. */
    ghost function Over(k: Key): State
      reads this
    {
      State(routes, next, objects, queued + {k}, looking, others - {k})
    }

    /** Where a call leads: to the next phase, or out with an error. */
    ghost function After(k: Key, j: Job, next: Pc, ok: bool): State
      reads this
    {
      if ok then View(k, j.(pc := next)) else Over(k)
    }

    /** An object changes in the cluster; the watch on owned HTTPRoutes queues their routes. */
    method SetObject(id: Id, x: Option<Resource>)
      modifies this`objects, this`queued
      ensures objects == Put(old(objects), id, x)
      ensures queued == old(queued) + Woken(id, Get(old(objects), id), x)
    {
      queued := queued + Woken(id, Get(objects, id), x);
      objects := Put(objects, id, x);
    }

    /** Get, then create or patch with the controller reference set. */
    method CreateOrPatch(k: Key, id: Id, want: Resource, r: CallReplies, ghost j: Job, ghost next: Pc)
      returns (ok: bool, ghost read: Option<Resource>)
      requires want.owner.Some? && want.owner.value.route == k
      modifies this`objects, this`queued
      ensures r.get != Done ==> !ok && objects == old(objects) && queued == old(queued)
      ensures r.get == Done ==> read == Get(old(objects), id)
      ensures r.get == Done ==>
                DoPut(old(View(k, j)), k, id, read, want, next, r.write) == After(k, j, next, ok)
    {
      var existing := Get(objects, id);
      read := existing;
      assert others[k := j] - {k} == others - {k};
      assert others[k := j][k := j.(pc := next)] == others[k := j.(pc := next)];
      if r.get != Done {
        return false, read;
      }
      if existing == None {
        if r.write == Refused || id in objects {
          return false, read;
        }
        SetObject(id, Some(want));
        return r.write == Done, read;
      }
      if existing.value.owner.Some? && existing.value.owner.value.route != k {
        return false, read;  // already owned by another route
      }
      if existing.value == want {
        return true, read;
      }
      if r.write == Refused || id !in objects {
        return false, read;
      }
      SetObject(id, Some(Resource(Patched(existing.value.owner, want.owner, objects[id].owner),
                                  Patched(existing.value.content, want.content, objects[id].content))));
      return r.write == Done, read;
    }

    method EnsureBackend(k: Key, j: Job, r: CallReplies) returns (ok: bool, ghost used: seq<Reply>)
      requires j.pc == GetBackend
      modifies this`objects, this`queued
      ensures Play(Writing(k), old(View(k, j)), used) == After(k, j, GetHttpRoute, ok)
    {
      var id, want := BackendId(Base(k, j.found)), BackendWanted(k, j.uid, j.found);
      ghost var s := View(k, j);
      ghost var read;
      PlayOne(Writing(k), s, r.get);
      ok, read := CreateOrPatch(k, id, want, r, j, GetHttpRoute);
      assert others[k := j] - {k} == others - {k};
      used := [r.get];
      if r.get == Done {
        ReadThenPut(s, k, PutBackend(read), id, read, want, GetHttpRoute, r.write);
        used := [Done, r.write];
      }
    }

    method EnsureHTTPRoute(k: Key, j: Job, r: CallReplies) returns (ok: bool, ghost used: seq<Reply>)
      requires j.pc == GetHttpRoute
      modifies this`objects, this`queued
      ensures Play(Writing(k), old(View(k, j)), used) == After(k, j, PolicyPhase(j.found), ok)
    {
      var id, want := HttpRouteId(Base(k, j.found)), HttpRouteWanted(k, j.uid, j.found);
      ghost var s := View(k, j);
      ghost var read;
      PlayOne(Writing(k), s, r.get);
      ok, read := CreateOrPatch(k, id, want, r, j, PolicyPhase(j.found));
      assert others[k := j] - {k} == others - {k};
      used := [r.get];
      if r.get == Done {
        ReadThenPut(s, k, PutHttpRoute(read), id, read, want, PolicyPhase(j.found), r.write);
        used := [Done, r.write];
      }
    }

    method DeletePolicyByName(k: Key, j: Job, r: Reply) returns (ok: bool)
      requires j.pc == DeletePolicy
      modifies this`objects, this`queued
      ensures Advance(old(View(k, j)), k, r) == After(k, j, Succeeded, ok)
    {
      assert others[k := j] - {k} == others - {k};
      assert others[k := j][k := j.(pc := Succeeded)] == others[k := j.(pc := Succeeded)];
      if r != Refused {
        SetObject(PolicyId(Base(k, j.found)), None);
      }
      return r == Done;
    }

    /** No rule: delete the policy by name.  Otherwise create or patch it. */
    method EnsurePolicy(k: Key, j: Job, r: CallReplies) returns (ok: bool, ghost used: seq<Reply>)
      requires j.pc == PolicyPhase(j.found)
      modifies this`objects, this`queued
      ensures Play(Writing(k), old(View(k, j)), used) == After(k, j, Succeeded, ok)
    {
      var id, want := PolicyId(Base(k, j.found)), PolicyWanted(k, j.uid, j.found);
      ghost var s := View(k, j);
      PlayOne(Writing(k), s, r.get);
      used := [r.get];
      assert others[k := j] - {k} == others - {k};
      var rules := ToolFilter.BuildMcpAuthorizationRules(j.found.filter);
      if |rules| == 0 {
        ok := DeletePolicyByName(k, j, r.get);
        return ok, used;
      }
      ghost var read;
      ok, read := CreateOrPatch(k, id, want, r, j, Succeeded);
      if r.get == Done {
        ReadThenPut(s, k, PutPolicy(read), id, read, want, Succeeded, r.write);
        used := [Done, r.write];
      }
    }

    /** reconcileToolRoute: from the first write to success or to the first error. */
    method ReconcileToolRoute(
      k: Key, uid: nat, f: Found, backend: CallReplies, httpRoute: CallReplies, policy: CallReplies)
      returns (ok: bool, ghost used: seq<Reply>)
      modifies this`objects, this`queued
      ensures var j := Job(uid, f, GetBackend); Play(Writing(k), old(View(k, j)), used) == After(k, j, Succeeded, ok)
    {
      var j := Job(uid, f, GetBackend);
      ghost var s := View(k, j);
      ghost var more;
      ok, used := EnsureBackend(k, j, backend);
      if !ok {
        return;
      }
      ok, more := EnsureHTTPRoute(k, j.(pc := GetHttpRoute), httpRoute);
      PlayAppend(Writing(k), s, used, more);
      used := used + more;
      if !ok {
        return;
      }
      ok, more := EnsurePolicy(k, j.(pc := PolicyPhase(f)), policy);
      PlayAppend(Writing(k), s, used, more);
      used := used + more;
    }

    /** One reconcile of a queued route from start to end. */
    method Reconcile(
      k: Key, get: Reply, lookUps: Reply,
      backend: CallReplies, httpRoute: CallReplies, policy: CallReplies, status: Reply)
      returns (ghost used: seq<Reply>)
      requires k in queued && k !in others && k !in looking
      modifies this`objects, this`queued
      ensures get != Done ==> Idle() == old(Idle())
      ensures get == Done && k !in routes ==> Idle() == old(Started(Idle(), k))
      ensures get == Done && k in routes ==>
                Idle() == Play(Writing(k), old(LookedUp(Started(Idle(), k), k, routes[k].inputs, lookUps)), used)
    {
      assert others - {k} == others;
      used := [];
      if get != Done {
        return;  // an error: the route stays queued
      }
      queued := queued - {k};
      if k !in routes {
        return;
      }
      assert looking[k := routes[k].uid] - {k} == looking;
      if lookUps != Done || routes[k].inputs == NoUpstream {
        queued := queued + {k};
        return;
      }
      if routes[k].inputs == NoGateway {
        return;
      }
      var j := Job(routes[k].uid, routes[k].inputs.found, GetBackend);
      ghost var s := View(k, j);
      var ok;
      ok, used := ReconcileToolRoute(k, j.uid, j.found, backend, httpRoute, policy);
      if !ok {
        queued := queued + {k};
        return;
      }
      PlayOne(Writing(k), View(k, j.(pc := Succeeded)), status);
      PlayAppend(Writing(k), s, used, [status]);
      used := used + [status];
      assert others[k := j.(pc := Succeeded)] - {k} == others;
      if status != Done {
        queued := queued + {k};
      }
    }
  }
}
