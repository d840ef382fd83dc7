/** One Guard and its adapter (ConfigMap, Deployment, Service) under the Guard
    reconciler: one step per API call, with edits of the Guard, its provider and
    the adapter objects between any two calls, and calls that may be refused or may
    take effect and still return an error. */
module GuardLoop {
  import opened Wrappers
  import opened Objects
  import opened Api
  import opened Replay
  import opened GuardConfig
  import GuardWatch

  datatype Slot = ConfigMapSlot | DeploymentSlot | ServiceSlot

  datatype ChildId = ChildId(kind: Slot, key: Key)

  /** The fields the reconciler sets in each kind of object. */
  datatype Content = Data(yaml: string) | Pod(hash: string, image: string) | Ports

  type Child = Owned<Content>

  /** What a reconcile comes to. */
  datatype Outcome = IsReady | IsNotReady(reason: Reason)

  /** The Ready condition as stored: the outcome and the observed generation. */
  datatype Status = Unset | Shown(outcome: Outcome, generation: nat)

  /** Where the reconcile in flight stands: before reading the provider, before
      reading an adapter object, before writing it, before the status patch. */
  datatype Pc =
    | Idle
    | Fetch(guard: GuardSpec)
    | Ensure(slot: Slot, plan: Plan)
    | Have(slot: Slot, plan: Plan, read: Option<Child>)
    | Report(outcome: Outcome)

  datatype State = State(
    guard: Option<GuardSpec>,
    generation: nat,   // of the Guard as stored
    seen: nat,         // of the Guard as read by the reconcile in flight
    providers: map<Key, ProviderSpec>,
    children: map<ChildId, Child>,
    status: Status,
    queued: bool,
    pc: Pc,
    swallowed: bool)   // the last terminal outcome could not be written to the status

  datatype Params = Params(enc: Encoding, image: string, key: Key)

  /** ConfigMap, Deployment and Service share one name, in the Guard's namespace. */
  function IdOf(p: Params, slot: Slot): ChildId {
    ChildId(slot, Key(p.key.ns, p.key.name + "-adapter"))
  }

  function CurrentPlan(p: Params, s: State): Plan
    requires s.guard.Some?
  {
    PlanOf(p.enc, p.image, s.guard.value, Get(s.providers, GuardWatch.ProviderKey(p.key, s.guard.value)))
  }

  function Wanted(p: Params, slot: Slot, plan: Plan): Child
    requires plan.Deploy?
  {
    Owned(Mine,
          match slot
          case ConfigMapSlot => Data(plan.yaml)
          case DeploymentSlot => Pod(plan.hash, p.image)
          case ServiceSlot => Ports)
  }

  predicate Deployed(p: Params, s: State, slot: Slot, plan: Plan)
    requires plan.Deploy?
  {
    Get(s.children, IdOf(p, slot)) == Some(Wanted(p, slot, plan))
  }

  predicate AllDeployed(p: Params, s: State, plan: Plan)
    requires plan.Deploy?
  {
    && Deployed(p, s, ConfigMapSlot, plan)
    && Deployed(p, s, DeploymentSlot, plan)
    && Deployed(p, s, ServiceSlot, plan)
  }

  // ------------------------------------------------- steps of the reconciler

  const FAILED := Report(IsNotReady(ReconcileFailed))

  function Next(slot: Slot, plan: Plan): Pc {
    match slot
    case ConfigMapSlot => Ensure(DeploymentSlot, plan)
    case DeploymentSlot => Ensure(ServiceSlot, plan)
    case ServiceSlot => Report(IsReady)
  }

  function AfterPlan(plan: Plan): Pc {
    match plan
    case Deploy(_, _) => Ensure(ConfigMapSlot, plan)
    case Stop(r) => Report(IsNotReady(r))
  }

  /** The merge patch from `read` to `want`, field by field. */
  function MergePatch(read: Child, want: Child, current: Child): Child {
    Owned(Patched(read.owner, want.owner, current.owner),
          if read.content.Pod? && want.content.Pod? && current.content.Pod? then
            Pod(Patched(read.content.hash, want.content.hash, current.content.hash),
                Patched(read.content.image, want.content.image, current.content.image))
          else Patched(read.content, want.content, current.content))
  }

  /** The write half of CreateOrPatch, after `read` was read. */
  function Write(p: Params, s: State, r: Reply): State
    requires s.pc.Have? && s.pc.plan.Deploy?
  {
    var Have(slot, plan, read) := s.pc;
    var want := Wanted(p, slot, plan);
    var current := Get(s.children, IdOf(p, slot));
    match read
    case None =>
      if r == Refused || current.Some? then s.(pc := FAILED)
      else Stored(p, s, slot, want, if r == Done then Next(slot, plan) else FAILED)
    case Some(c) =>
      if c.owner == Other then s.(pc := FAILED)
      else if c == want then s.(pc := Next(slot, plan))
      else if r == Refused || current.None? then s.(pc := FAILED)
      else
        Stored(p, s, slot, MergePatch(c, want, current.value), if r == Done then Next(slot, plan) else FAILED)
  }

  function Stored(p: Params, s: State, slot: Slot, c: Child, pc: Pc): State {
    s.(children := s.children[IdOf(p, slot) := c],
       queued := s.queued || Wakes(Get(s.children, IdOf(p, slot)), Some(c)),
       pc := pc)
  }

  /** The status patch and the end of the reconcile: errors are retried, terminal
      outcomes are not, even if the patch failed. */
  function Conclude(s: State, r: Reply): State
    requires s.pc.Report?
  {
    var o := s.pc.outcome;
    var status := if r == Refused || s.guard.None? then s.status else Shown(o, s.seen);
    var retried := if o.IsNotReady? then !IsTerminal(o.reason) else r != Done;
    s.(status := status,
       queued := s.queued || status != s.status || retried,
       pc := Idle,
       swallowed := o.IsNotReady? && IsTerminal(o.reason) && r == Refused)
  }

  predicate CanAdvance(s: State) {
    && (s.pc == Idle ==> s.queued)
    && (s.pc.Have? ==> s.pc.plan.Deploy?)
  }

  /** The next API call of the reconciler, with the given reply. */
  function Advance(p: Params, s: State, r: Reply): State
    requires CanAdvance(s)
  {
    match s.pc
    case Idle =>
      if r != Done then s
      else
        (match s.guard
         case None => s.(queued := false)
         case Some(g) =>
           s.(queued := false, seen := s.generation,
              pc := if p.image == "" then Report(IsNotReady(AdapterNotConfigured)) else Fetch(g)))
    case Fetch(g) =>
      if r != Done then s.(pc := FAILED)
      else s.(pc := AfterPlan(PlanOf(p.enc, p.image, g, Get(s.providers, GuardWatch.ProviderKey(p.key, g)))))
    case Ensure(slot, plan) =>
      if r != Done then s.(pc := FAILED) else s.(pc := Have(slot, plan, Get(s.children, IdOf(p, slot))))
    case Have(_, _, _) => Write(p, s, r)
    case Report(_) => Conclude(s, r)
  }

  /** The reconciler as a machine that takes replies. */
  function Reconciling(p: Params): Machine<State, Reply> {
    Machine(s => CanAdvance(s), (s: State, r: Reply) => if CanAdvance(s) then Advance(p, s, r) else s)
  }

  // ---------------------------------------------------- steps of the cluster

  datatype Edit =
    | EditGuard(guard: Option<GuardSpec>)
    | EditProvider(provider: Key, spec: Option<ProviderSpec>)
    | EditChild(id: ChildId, child: Option<Child>)
    | Nudge

  function Edited(p: Params, s: State, e: Edit): State {
    match e
    case EditGuard(g) =>
      s.(guard := g, generation := s.generation + 1, queued := true,
         status := if s.guard.None? || g.None? then Unset else s.status)
    case EditProvider(k, v) =>
      s.(providers := Put(s.providers, k, v),
         queued := s.queued || (s.guard.Some? && GuardWatch.ProviderKey(p.key, s.guard.value) == k))
    case EditChild(id, c) =>
      s.(children := Put(s.children, id, c), queued := s.queued || Wakes(Get(s.children, id), c))
    case Nudge => s.(queued := true)
  }

  ghost predicate Step(p: Params, s: State, s': State) {
    || (CanAdvance(s) && exists r :: s' == Advance(p, s, r))
    || (exists e :: s' == Edited(p, s, e))
  }

  /** The same without edits of the adapter objects by anyone else. */
  ghost predicate OwnStep(p: Params, s: State, s': State) {
    || (CanAdvance(s) && exists r :: s' == Advance(p, s, r))
    || (exists e: Edit :: !e.EditChild? && s' == Edited(p, s, e))
  }

  ghost predicate Init(s: State) {
    s.pc == Idle && s.queued
  }

  // ------------------------------------------------------- nothing is missed

  /** Everything is as the present Guard and provider call for. */
  predicate AtRest(p: Params, s: State)
    requires s.guard.Some?
  {
    match CurrentPlan(p, s)
    case Deploy(_, _) =>
      s.status == Shown(IsReady, s.generation) && AllDeployed(p, s, CurrentPlan(p, s))
    case Stop(r) =>
      IsTerminal(r) && (s.status == Shown(IsNotReady(r), s.generation) || s.swallowed)
  }

  /** The adapter objects that come before `slot` are as wanted. */
  predicate OnTrack(p: Params, s: State, slot: Slot, plan: Plan) {
    && s.guard.Some? && plan == CurrentPlan(p, s) && plan.Deploy?
    && (!slot.ConfigMapSlot? ==> Deployed(p, s, ConfigMapSlot, plan))
    && (slot.ServiceSlot? ==> Deployed(p, s, DeploymentSlot, plan))
  }

  /** While the Guard is not queued, the reconcile in flight works on present data,
      and with none in flight the adapter and the status are right. */
  predicate Inv(p: Params, s: State) {
    && (s.pc.Ensure? || s.pc.Have? ==> s.pc.plan.Deploy?)
    && (s.queued || s.pc == Idle || s.seen == s.generation)
    && (s.queued ||
        match s.pc
        case Idle => s.guard.Some? ==> AtRest(p, s)
        case Fetch(g) => s.guard == Some(g) && p.image != ""
        case Ensure(slot, plan) => OnTrack(p, s, slot, plan)
        case Have(slot, plan, read) =>
          && OnTrack(p, s, slot, plan)
          && var current := Get(s.children, IdOf(p, slot));
          if read.Some? && read.value.owner == Mine then current == read
          else current.None? || current.value.owner != Mine
        case Report(o) =>
          && s.guard.Some?
          && (o == IsReady ==>
                CurrentPlan(p, s).Deploy? && AllDeployed(p, s, CurrentPlan(p, s)))
          && (o.IsNotReady? && IsTerminal(o.reason) ==> CurrentPlan(p, s) == Stop(o.reason)))
  }

  lemma AdvanceKeeps(p: Params, s: State, r: Reply)
    requires Inv(p, s) && CanAdvance(s)
    ensures Inv(p, Advance(p, s, r))
  {
    var s' := Advance(p, s, r);
    match s.pc {
      case Have(slot, plan, read) => WriteKeeps(p, s, r);
      case _ =>
    }
  }

  lemma WriteKeeps(p: Params, s: State, r: Reply)
    requires Inv(p, s) && s.pc.Have?
    ensures Inv(p, Write(p, s, r))
  {
    var s' := Write(p, s, r);
    if !s'.queued && s'.pc != FAILED {
      // no write was needed: the object was, and still is, as wanted
      assert s' == s.(pc := Next(s.pc.slot, s.pc.plan));
      assert Deployed(p, s, s.pc.slot, s.pc.plan);
    }
  }

  lemma EditKeeps(p: Params, s: State, e: Edit)
    requires Inv(p, s)
    ensures Inv(p, Edited(p, s, e))
  {
    var s' := Edited(p, s, e);
    if !s'.queued {
      match e {
        case EditProvider(k, v) =>
          if s.guard.Some? {
            assert Get(s'.providers, GuardWatch.ProviderKey(p.key, s.guard.value))
                == Get(s.providers, GuardWatch.ProviderKey(p.key, s.guard.value));
          }
        case EditChild(id, c) =>
          assert !Wakes(Get(s.children, id), c);
          assert Get(s'.children, id) == c;
        case _ =>
      }
    }
  }

  ghost predicate Run(p: Params, ss: seq<State>) {
    && ss != [] && Init(ss[0])
    && forall i | 0 <= i < |ss| - 1 :: Step(p, ss[i], ss[i + 1])
  }

  lemma {:induction false} RunKeeps(p: Params, ss: seq<State>)
    requires Run(p, ss)
    ensures Inv(p, ss[|ss| - 1])
  {
    if |ss| > 1 {
      var front := ss[..|ss| - 1];
      forall i | 0 <= i < |front| - 1 ensures Step(p, front[i], front[i + 1]) {
        assert Step(p, ss[i], ss[i + 1]);
      }
      RunKeeps(p, front);
      var s, s' := ss[|ss| - 2], ss[|ss| - 1];
      assert Step(p, s, s');
      if CanAdvance(s) && exists r :: s' == Advance(p, s, r) {
        var r :| s' == Advance(p, s, r);
        AdvanceKeeps(p, s, r);
      } else {
        var e :| s' == Edited(p, s, e);
        EditKeeps(p, s, e);
      }
    }
  }

  /** In every state of every run, drift and failing calls included: a Guard that is
      neither queued nor in flight has exactly the adapter and the status its present
      spec and provider call for.  The one exception is the status of a terminal
      outcome whose patch failed: that failure is swallowed. */
  lemma NothingMissed(p: Params, ss: seq<State>)
    requires Run(p, ss)
    requires var s := ss[|ss| - 1]; s.pc == Idle && !s.queued && s.guard.Some?
    ensures AtRest(p, ss[|ss| - 1])
  {
    RunKeeps(p, ss);
  }

  /** A Guard that cannot be deployed is left alone: in every run, a call made while it is
      not queued changes none of its adapter objects, those left from before included. */
  lemma StoppedLeavesAdapter(p: Params, ss: seq<State>, r: Reply)
    requires Run(p, ss)
    requires var s := ss[|ss| - 1];
             CanAdvance(s) && !s.queued && s.guard.Some? && CurrentPlan(p, s).Stop?
    ensures Advance(p, ss[|ss| - 1], r).children == ss[|ss| - 1].children
  {
    RunKeeps(p, ss);
  }
}
