/** The ToolGateway reconciler in the form of its source: it mutates the conditions
    of the ToolGateway in memory, changes the policy in the cluster, and patches the
    status at the end.  Every method is a run of the machine of GatewayConditions. */
module GatewayReconciler {
  import opened Wrappers
  import opened Objects
  import opened Api
  import opened Replay
  import opened GatewayWatch
  import opened GatewayMessages
  import opened GatewayConditions

  /** The in-memory copy a reconcile works on. */
  class ToolGateway {
    const uid: nat
    const guardrails: seq<Ref>
    const generation: nat
    ghost const read: seq<Condition>
    var conditions: seq<Condition>

    constructor (uid: nat, guardrails: seq<Ref>, generation: nat, conditions: seq<Condition>)
      ensures Snapshot() == Mem(uid, guardrails, generation, conditions, conditions)
    {
      this.uid := uid;
      this.guardrails := guardrails;
      this.generation := generation;
      this.conditions := conditions;
      read := conditions;
    }

    ghost function Snapshot(): Mem
      reads this
    {
      Mem(uid, guardrails, generation, read, conditions)
    }
  }

  class Reconciler {
    const key: Key
    var spec: Option<Spec>
    var uid: nat
    var generation: nat
    var stored: seq<Condition>
    var guards: map<Key, ReadyCondition>
    var policy: Option<Policy>
    var queued: bool

    constructor (key: Key, spec: Spec, guards: map<Key, ReadyCondition>)
      ensures this.key == key && View(Idle) == State(Some(spec), 0, 1, [], guards, None, true, Idle)
    {
      this.key := key;
      this.spec := Some(spec);
      this.guards := guards;
      uid := 0;
      generation := 1;
      stored := [];
      policy := None;
      queued := true;
    }

    ghost function View(pc: Pc): State
      reads this
    {
      State(spec, uid, generation, stored, guards, policy, queued, pc)
    }

    /** The policy in the cluster changes, and the watch on owned policies sees it. */
    method SetPolicy(p: Option<Policy>)
      modifies this`policy, this`queued
      ensures policy == p && queued == (old(queued) || Wakes(old(policy), p))
    {
      if policy != p && ((policy != None && policy.value.owner == Mine) || (p != None && p.value.owner == Mine)) {
        queued := true;
      }
      policy := p;
    }

    /** CreateOrPatch of the guardrail policy. */
    method CreateOrPatchPolicy(tg: ToolGateway, guard: Key, get: Call, write: Call)
      returns (ok: bool, failed: Call, ghost used: seq<Call>)
      modifies this`policy, this`queued
      ensures Play(Reconciling(key), old(View(ReadPolicy(tg.Snapshot(), guard))), used) ==
              View(if ok then GuardrailsDone(tg.Snapshot())
                   else Fail(tg.Snapshot(), GuardrailsFailed, WriteFailed(failed.input.detail)))
    {
      PlayOne(Reconciling(key), View(ReadPolicy(tg.Snapshot(), guard)), get);
      PlayTwo(Reconciling(key), View(ReadPolicy(tg.Snapshot(), guard)), get, write);
      if get.reply != Done {
        return false, get, [get];
      }
      var existing := policy;
      var want := Owned(Mine, PolicyFor(key.name, guard));
      used := [get, write];
      if existing == None {
        if write.reply == Refused || policy != None {
          return false, write, used;
        }
        SetPolicy(Some(want));
        return write.reply == Done, write, used;
      }
      if existing.value.owner == Other {
        return false, write, used;
      }
      if existing.value == want {
        return true, write, used;
      }
      if write.reply == Refused || policy == None {
        return false, write, used;
      }
      SetPolicy(Some(MergePatch(existing.value, want, policy.value)));
      return write.reply == Done, write, used;
    }

    /** Zero guards: delete the policy.  Several: set the GuardrailsUnsupported
        condition and fail.  One: require it Ready and wire its adapter. */
    method EnsureGuardrails(tg: ToolGateway, first: Call, get: Call, write: Call)
      returns (o: Outcome, ghost used: seq<Call>)
      modifies tg`conditions, this`policy, this`queued
      ensures Play(Reconciling(key), old(View(Guardrails(tg.Snapshot()))), used) == View(Report(tg.Snapshot(), o))
    {
      ghost var s := View(Guardrails(tg.Snapshot()));
      PlayOne(Reconciling(key), s, first);
      used := [first];
      if |tg.guardrails| == 0 {
        if first.reply != Refused {
          SetPolicy(None);
        }
        if first.reply != Done {
          return Failure(GuardrailsFailed, DeleteFailed(first.input.detail)), used;
        }
        tg.conditions := RemoveCondition(tg.conditions, GuardrailsUnsupported);
        return Success, used;
      }
      if |tg.guardrails| > 1 {
        tg.conditions := SetCondition(tg.conditions, UnsupportedCondition(tg.generation, first.input.now));
        return Failure(GuardrailsFailed, MultipleGuards), used;
      }
      var ref := tg.guardrails[0];
      var guardNs := ref.ns;
      if guardNs == "" {
        guardNs := key.ns;
      }
      var guard := Key(guardNs, ref.name);
      if first.reply != Done {
        return Failure(GuardrailsFailed, GetFailed(first.input.detail)), used;
      }
      if guard !in guards {
        return Failure(GuardNotFound, Detail(first.input.detail)), used;
      }
      if !guards[guard].Ready? {
        return Failure(GuardNotReady, Detail(first.input.detail)), used;
      }
      ghost var more;
      var ok, failed;
      ok, failed, more := CreateOrPatchPolicy(tg, guard, get, write);
      PlayAppend(Reconciling(key), s, used, more);
      used := used + more;
      if !ok {
        return Failure(GuardrailsFailed, WriteFailed(failed.input.detail)), used;
      }
      tg.conditions := RemoveCondition(tg.conditions, GuardrailsUnsupported);
      return Success, used;
    }

    /** updateStatusReady and updateStatusNotReady: the patch base is copied first,
        then Ready is set in memory, then the difference is sent. */
    method UpdateStatus(tg: ToolGateway, o: Outcome, c: Call) returns (ok: bool)
      modifies tg`conditions, this`stored, this`queued
      ensures tg.conditions == Final(old(tg.Snapshot()), o, c.input.now)
      ensures ok == (c.reply == Done)
      ensures stored == if c.reply == Refused || spec == None then old(stored)
                        else Patched(old(tg.conditions), tg.conditions, old(stored))
      ensures queued == (old(queued) || stored != old(stored))
    {
      var base := tg.conditions;
      tg.conditions := SetCondition(tg.conditions, ReadyConditionFor(o, tg.generation, c.input.now));
      if c.reply != Refused && spec != None && base != tg.conditions {
        if stored != tg.conditions {
          queued := true;  // the watch on ToolGateways
        }
        stored := tg.conditions;
      }
      return c.reply == Done;
    }

    /** The three phases in order; the first that fails decides the outcome. */
    method ReconcileToolGateway(
      tg: ToolGateway, parameters: Call, gateway: Call, first: Call, get: Call, write: Call)
      returns (o: Outcome, ghost used: seq<Call>)
      modifies tg`conditions, this`policy, this`queued
      ensures Play(Reconciling(key), old(View(Parameters(tg.Snapshot()))), used) == View(Report(tg.Snapshot(), o))
    {
      ghost var s := View(Parameters(tg.Snapshot()));
      PlayOne(Reconciling(key), s, parameters);
      PlayTwo(Reconciling(key), s, parameters, gateway);
      if parameters.reply != Done {
        return Failure(ParametersFailed, Detail(parameters.input.detail)), [parameters];
      }
      if gateway.reply != Done {
        return Failure(GatewayFailed, Detail(gateway.input.detail)), [parameters, gateway];
      }
      ghost var more;
      o, more := EnsureGuardrails(tg, first, get, write);
      used := [parameters, gateway] + more;
      PlayAppend(Reconciling(key), s, [parameters, gateway], more);
    }

    /** One reconcile of a queued ToolGateway from start to end. */
    method Reconcile(
      get: Call, parameters: Call, gateway: Call, first: Call, getPolicy: Call, write: Call, status: Call)
      returns (ghost used: seq<Call>)
      requires queued
      modifies this`policy, this`stored, this`queued
      ensures View(Idle) == Play(Reconciling(key), old(View(Idle)), used)
    {
      ghost var s := View(Idle);
      used := [get];
      PlayOne(Reconciling(key), s, get);
      if get.reply != Done {
        return;  // an error: the key stays queued
      }
      queued := false;
      if spec == None || !spec.value.owned {
        return;
      }
      var tg := new ToolGateway(uid, spec.value.guardrails, generation, stored);
      var o;
      ghost var more;
      o, more := ReconcileToolGateway(tg, parameters, gateway, first, getPolicy, write);
      PlayAppend(Reconciling(key), s, used, more);
      used := used + more;
      PlayOne(Reconciling(key), View(Report(tg.Snapshot(), o)), status);
      PlayAppend(Reconciling(key), s, used, [status]);
      used := used + [status];
      var ok := UpdateStatus(tg, o, status);
      if o != Success || !ok {
        queued := true;
      }
    }
  }
}
