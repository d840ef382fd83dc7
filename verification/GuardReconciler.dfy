/** The Guard reconciler in the form of its source: a sequence of API calls that
    changes cluster objects and the status, with early exits.  Each method is proved
    to be a run of the step machine of GuardLoop, so what is proved about all runs
    of that machine, with anything in between the calls, holds of this code. */
module GuardReconciler {
  import opened Wrappers
  import opened Objects
  import opened Api
  import opened Replay
  import opened GuardConfig
  import GuardWatch
  import opened GuardLoop

  class Reconciler {
    const p: Params
    var guard: Option<GuardSpec>
    var generation: nat
    var seen: nat
    var providers: map<Key, ProviderSpec>
    var children: map<ChildId, Child>
    var status: Status
    var queued: bool
    var swallowed: bool

    constructor (p: Params, guard: Option<GuardSpec>, providers: map<Key, ProviderSpec>)
      ensures this.p == p
      ensures View(Idle) == State(guard, 1, 1, providers, map[], Unset, true, Idle, false)
    {
      this.p := p;
      this.guard := guard;
      generation := 1;
      seen := 1;
      this.providers := providers;
      children := map[];
      status := Unset;
      queued := true;
      swallowed := false;
    }

    /** The machine state with the reconcile in flight at `pc`. */
    ghost function View(pc: Pc): State
      reads this
    {
      State(guard, generation, seen, providers, children, status, queued, pc, swallowed)
    }

    /** Get, then create or patch: the body of ensureConfigMap, ensureDeployment and
        ensureService, which differ in the fields they set. */
    method CreateOrPatch(slot: Slot, plan: Plan, r: CallReplies) returns (ok: bool, ghost used: seq<Reply>)
      requires plan.Deploy?
      modifies this`children, this`queued
      ensures View(if ok then Next(slot, plan) else FAILED) == Play(Reconciling(p), old(View(Ensure(slot, plan))), used)
    {
      ghost var s := View(Ensure(slot, plan));
      used := [r.get];
      PlayOne(Reconciling(p), s, r.get);
      if r.get != Done {
        return false, used;
      }
      var existing := Get(children, IdOf(p, slot));
      ghost var s1 := Advance(p, s, r.get);
      used := [r.get, r.write];
      PlayAppend(Reconciling(p), s, [r.get], [r.write]);
      assert [r.get] + [r.write] == used;
      PlayOne(Reconciling(p), s1, r.write);
      var want := Wanted(p, slot, plan);
      if existing == None {
        if r.write == Refused || IdOf(p, slot) in children {
          return false, used;
        }
        Store(slot, want);
        ok := r.write == Done;
      } else {
        if existing.value.owner == Other {
          return false, used;  // SetControllerReference: already owned
        }
        if existing.value == want {
          return true, used;   // nothing to patch
        }
        if r.write == Refused || IdOf(p, slot) !in children {
          return false, used;
        }
        Store(slot, MergePatch(existing.value, want, children[IdOf(p, slot)]));
        ok := r.write == Done;
      }
    }

    method Store(slot: Slot, c: Child)
      modifies this`children, this`queued
      ensures children == old(children)[IdOf(p, slot) := c]
      ensures queued == (old(queued) || Wakes(Get(old(children), IdOf(p, slot)), Some(c)))
    {
      var before := Get(children, IdOf(p, slot));
      children := children[IdOf(p, slot) := c];
      if before != Some(c) &&
         ((before.Some? && before.value.owner == Mine) || c.owner == Mine) {
        queued := true;  // the watch on owned objects
      }
    }

    /** The core reconciliation: provider, configuration, ConfigMap, Deployment,
        Service, in this order. */
    method ReconcileGuard(g: GuardSpec, rProvider: Reply, r: map<Slot, CallReplies>)
      returns (outcome: Outcome, ghost used: seq<Reply>)
      requires forall slot :: slot in r
      modifies this`children, this`queued
      ensures View(Report(outcome)) ==
              if p.image == "" then old(View(Report(IsNotReady(AdapterNotConfigured))))
              else Play(Reconciling(p), old(View(Fetch(g))), used)
    {
      if p.image == "" {
        return IsNotReady(AdapterNotConfigured), [];
      }
      ghost var s := View(Fetch(g));
      used := [rProvider];
      PlayOne(Reconciling(p), s, rProvider);
      if rProvider != Done {
        return IsNotReady(ReconcileFailed), used;
      }
      var provider := Get(providers, GuardWatch.ProviderKey(p.key, g));
      if provider == None {
        return IsNotReady(ProviderNotFound), used;
      }
      var rendered := RenderStaticConfig(p.enc, g, provider.value);
      if rendered.Failed? {
        match rendered.error {
          case UnsupportedProvider => return IsNotReady(UnsupportedProviderType), used;
          case InvalidConfig => return IsNotReady(InvalidGuardConfig), used;
          case MarshalFailed => return IsNotReady(ReconcileFailed), used;
        }
      }
      var plan := Deploy(rendered.yaml, rendered.hash);
      ghost var more;
      var ok;
      ok, more := CreateOrPatch(ConfigMapSlot, plan, r[ConfigMapSlot]);
      PlayAppend(Reconciling(p), s, used, more);
      used := used + more;
      if !ok {
        return IsNotReady(ReconcileFailed), used;
      }
      ok, more := CreateOrPatch(DeploymentSlot, plan, r[DeploymentSlot]);
      PlayAppend(Reconciling(p), s, used, more);
      used := used + more;
      if !ok {
        return IsNotReady(ReconcileFailed), used;
      }
      ok, more := CreateOrPatch(ServiceSlot, plan, r[ServiceSlot]);
      PlayAppend(Reconciling(p), s, used, more);
      used := used + more;
      if !ok {
        return IsNotReady(ReconcileFailed), used;
      }
      return IsReady, used;
    }

    /** The status patch.  A patch that changes nothing causes no event. */
    method SetReadyCondition(o: Outcome, r: Reply) returns (ok: bool)
      modifies this`status, this`queued
      ensures ok == (r == Done)
      ensures status == if r == Refused || guard == None then old(status) else Shown(o, seen)
      ensures queued == (old(queued) || status != old(status))
    {
      if r != Refused && guard != None && status != Shown(o, seen) {
        status := Shown(o, seen);
        queued := true;
      }
      return r == Done;
    }

    /** Report the outcome and decide whether the Guard is queued again. */
    method Finish(outcome: Outcome, r: Reply)
      modifies this`status, this`queued, this`swallowed
      ensures View(Idle) == Conclude(old(View(Report(outcome))), r)
    {
      var ok := SetReadyCondition(outcome, r);
      swallowed := false;
      if outcome.IsNotReady? {
        if IsTerminal(outcome.reason) {
          swallowed := r == Refused;
        } else {
          queued := true;
        }
      } else if !ok {
        queued := true;
      }
    }

    /** One reconcile of a queued Guard from start to end: a run of the machine that
        starts and ends idle. */
    method Reconcile(rGuard: Reply, rProvider: Reply, r: map<Slot, CallReplies>, rStatus: Reply)
      returns (ghost used: seq<Reply>)
      requires queued && forall slot :: slot in r
      modifies this
      ensures View(Idle) == Play(Reconciling(p), old(View(Idle)), used)
      ensures guard == old(guard) && generation == old(generation) && providers == old(providers)
    {
      ghost var s := View(Idle);
      used := [rGuard];
      PlayOne(Reconciling(p), s, rGuard);
      if rGuard != Done {
        return;  // the key stays queued
      }
      queued := false;
      if guard == None {
        return;
      }
      seen := generation;
      var outcome;
      ghost var more;
      outcome, more := ReconcileGuard(guard.value, rProvider, r);
      if p.image == "" { more := []; }
      PlayAppend(Reconciling(p), s, used, more);
      used := used + more;
      PlayOne(Reconciling(p), View(Report(outcome)), rStatus);
      PlayAppend(Reconciling(p), s, used, [rStatus]);
      used := used + [rStatus];
      Finish(outcome, rStatus);
    }
  }
}
