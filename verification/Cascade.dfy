/** One Guard with its provider and adapter, and one ToolGateway, with both controllers at
    work in the same run: provider edits, Guard reconciles and gateway reconciles come in
    any order, one API call at a time. */
module Cascade {
  import opened Wrappers
  import opened Objects
  import opened Api
  import opened GuardConfig
  import opened GatewayWatch
  import GuardLoop
  import GatewayConditions
  import GatewayLoop

  datatype Cluster = Cluster(guard: GuardLoop.State, gateway: GatewayConditions.State)

  function ReasonText(r: Reason): string {
    match r
    case AdapterNotConfigured => "AdapterNotConfigured"
    case ProviderNotFound => "ProviderNotFound"
    case UnsupportedProviderType => "UnsupportedProviderType"
    case InvalidGuardConfig => "InvalidConfig"
    case ReconcileFailed => "ReconcileFailed"
  }

  /** The Guard as the ToolGateway controller reads it. */
  function Shows(g: GuardLoop.State): Option<ReadyCondition> {
    if g.guard.None? then None
    else
      match g.status
      case Unset => Some(NoCondition)
      case Shown(IsReady, _) => Some(Ready)
      case Shown(IsNotReady(r), _) => Some(NotReady(ReasonText(r), ""))
  }

  /** Any change of the Guard object is an event for the ToolGateway controller. */
  predicate GuardChanged(g: GuardLoop.State, g': GuardLoop.State) {
    g'.guard != g.guard || g'.generation != g.generation || g'.status != g.status
  }

  /** The Guard controller, or someone who edits the Guard, its provider or its adapter,
      takes a step, and the ToolGateway controller hears of it. */
  ghost predicate GuardSide(p: GuardLoop.Params, key: Key, c: Cluster, c': Cluster) {
    && GuardLoop.Step(p, c.guard, c'.guard)
    && c'.gateway ==
       if GuardChanged(c.guard, c'.guard) then
         GatewayConditions.Edited(key, c.gateway, GatewayConditions.EditGuard(p.key, Shows(c'.guard)))
       else c.gateway
  }

  /** The ToolGateway controller, or someone who edits the ToolGateway, its policy or
      other Guards, takes a step.  Events of the provider, which the controller maps to
      the ToolGateway too, are nudges. */
  ghost predicate GatewaySide(p: GuardLoop.Params, key: Key, c: Cluster, c': Cluster) {
    && c'.guard == c.guard
    && ((GatewayConditions.CanAdvance(c.gateway)
         && exists r, x :: c'.gateway == GatewayConditions.Advance(key, c.gateway, r, x))
        || (exists e: GatewayConditions.Edit ::
              (e.EditGuard? ==> e.guard != p.key) && c'.gateway == GatewayConditions.Edited(key, c.gateway, e)))
  }

  ghost predicate Run(p: GuardLoop.Params, key: Key, cs: seq<Cluster>) {
    && cs != [] && GuardLoop.Init(cs[0].guard) && GatewayConditions.Init(cs[0].gateway)
    && Get(cs[0].gateway.guards, p.key) == Shows(cs[0].guard)
    && forall i | 0 <= i < |cs| - 1 :: GuardSide(p, key, cs[i], cs[i + 1]) || GatewaySide(p, key, cs[i], cs[i + 1])
  }

  ghost predicate Inv(p: GuardLoop.Params, key: Key, c: Cluster) {
    && GuardLoop.Inv(p, c.guard)
    && GatewayLoop.LoopInv(key, c.gateway)
    && Get(c.gateway.guards, p.key) == Shows(c.guard)
  }

  lemma GuardSideKeeps(p: GuardLoop.Params, key: Key, c: Cluster, c': Cluster)
    requires Inv(p, key, c) && GuardSide(p, key, c, c')
    ensures Inv(p, key, c')
  {
    var g, g' := c.guard, c'.guard;
    if GuardLoop.CanAdvance(g) && exists r :: g' == GuardLoop.Advance(p, g, r) {
      var r :| g' == GuardLoop.Advance(p, g, r);
      GuardLoop.AdvanceKeeps(p, g, r);
    } else {
      var e :| g' == GuardLoop.Edited(p, g, e);
      GuardLoop.EditKeeps(p, g, e);
    }
    GatewayLoop.EditKeepsLoop(key, c.gateway, GatewayConditions.EditGuard(p.key, Shows(g')));
  }

  /** The ToolGateway controller does not write Guards. */
  lemma GuardsUntouched(key: Key, s: GatewayConditions.State, r: Reply, x: GatewayConditions.Input)
    requires GatewayConditions.CanAdvance(s)
    ensures GatewayConditions.Advance(key, s, r, x).guards == s.guards
  {
    if s.pc.WritePolicy? { GatewayConditions.WriteFrame(key, s, r, x); }
  }

  lemma GatewaySideKeeps(p: GuardLoop.Params, key: Key, c: Cluster, c': Cluster)
    requires Inv(p, key, c) && GatewaySide(p, key, c, c')
    ensures Inv(p, key, c')
  {
    var t, t' := c.gateway, c'.gateway;
    if GatewayConditions.CanAdvance(t) && exists r, x :: t' == GatewayConditions.Advance(key, t, r, x) {
      var r, x :| t' == GatewayConditions.Advance(key, t, r, x);
      GatewayLoop.AdvanceKeepsLoop(key, t, r, x);
      GuardsUntouched(key, t, r, x);
    } else {
      var e: GatewayConditions.Edit :|
        (e.EditGuard? ==> e.guard != p.key) && t' == GatewayConditions.Edited(key, t, e);
      GatewayLoop.EditKeepsLoop(key, t, e);
    }
  }

  lemma {:induction false} RunKeeps(p: GuardLoop.Params, key: Key, cs: seq<Cluster>, n: nat)
    requires Run(p, key, cs) && n < |cs|
    ensures Inv(p, key, cs[n])
    decreases n
  {
    if n > 0 {
      RunKeeps(p, key, cs, n - 1);
      assert GuardSide(p, key, cs[n - 1], cs[n - 1 + 1]) || GatewaySide(p, key, cs[n - 1], cs[n - 1 + 1]);
      if GuardSide(p, key, cs[n - 1], cs[n]) {
        GuardSideKeeps(p, key, cs[n - 1], cs[n]);
      } else {
        GatewaySideKeeps(p, key, cs[n - 1], cs[n]);
      }
    }
  }

  predicate Quiet(c: Cluster) {
    c.guard.pc == GuardLoop.Idle && !c.guard.queued && c.gateway.pc == GatewayConditions.Idle && !c.gateway.queued
  }

  /** The ToolGateway is ours and names exactly this Guard. */
  predicate Guarded(p: GuardLoop.Params, key: Key, c: Cluster) {
    && c.gateway.spec.Some? && c.gateway.spec.value.owned
    && var refs := c.gateway.spec.value.guardrails; |refs| == 1 && Resolve(refs[0], key.ns) == p.key
  }

  /** The Guard controller keeps a Service of this name. */
  predicate KeepsService(g: GuardLoop.State, k: Key) {
    var id := GuardLoop.ChildId(GuardLoop.ServiceSlot, k);
    id in g.children && g.children[id].owner == Mine && g.children[id].content == GuardLoop.Ports
  }

  /** The whole chain, over every run: when both controllers are at rest, traffic of a
      guarded ToolGateway is sent to the very Service that the Guard controller keeps for
      its Guard, and the adapter behind it is exactly the one that the Guard and the provider
      call for at present; or else the one status patch that would have told of an
      undeployable Guard was refused. */
  lemma RestIsConsistent(p: GuardLoop.Params, key: Key, cs: seq<Cluster>, n: nat)
    requires Run(p, key, cs) && n < |cs| && Quiet(cs[n]) && Guarded(p, key, cs[n])
    ensures var g, t := cs[n].guard, cs[n].gateway;
            && t.policy.Some? && t.policy.value.owner == Mine && t.policy.value.content.gateway == key.name
            && var to := Key(t.policy.value.content.adapterNs, t.policy.value.content.adapter);
            && to == Key(p.key.ns, p.key.name + "-adapter")
            && GatewayLoop.ShownReady(t.conditions, t.generation)
            && (!g.swallowed ==> KeepsService(g, to))
            && g.guard.Some?
            && var plan := GuardLoop.CurrentPlan(p, g);
               (plan.Deploy? && GuardLoop.AllDeployed(p, g, plan)) || (plan.Stop? && g.swallowed)
  {
    RunKeeps(p, key, cs, n);
  }

  /** Put the other way round: while a Guard is shown as not deployable, or not shown at
      all, a ToolGateway that names it does not come to rest. */
  lemma GatewayWaitsForGuard(p: GuardLoop.Params, key: Key, cs: seq<Cluster>, n: nat)
    requires Run(p, key, cs) && n < |cs| && Guarded(p, key, cs[n])
    requires Shows(cs[n].guard) != Some(Ready)
    ensures cs[n].gateway.queued || cs[n].gateway.pc != GatewayConditions.Idle
  {
    RunKeeps(p, key, cs, n);
  }
}
