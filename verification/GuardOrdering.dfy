/** Over whole runs of the Guard loop: the Deployment never carries the hash of a
    configuration that was not in the ConfigMap, and the loop settles. */
module GuardOrdering {
  import opened Wrappers
  import opened Api
  import opened Replay
  import opened GuardConfig
  import opened GuardLoop
  import GuardWatch

  // ------------------------------------------------------------ hash ordering

  predicate OwnChildren(p: Params, s: State) {
    && (IdOf(p, ConfigMapSlot) in s.children ==>
          s.children[IdOf(p, ConfigMapSlot)].owner == Mine && s.children[IdOf(p, ConfigMapSlot)].content.Data?)
    && (IdOf(p, DeploymentSlot) in s.children ==>
          s.children[IdOf(p, DeploymentSlot)].owner == Mine && s.children[IdOf(p, DeploymentSlot)].content.Pod?)
    && (IdOf(p, ServiceSlot) in s.children ==> s.children[IdOf(p, ServiceSlot)] == Owned(Mine, Ports))
  }

  /** Both objects are there and the hash is that of the present configuration. */
  predicate HashIsCurrent(p: Params, s: State) {
    && IdOf(p, ConfigMapSlot) in s.children && s.children[IdOf(p, ConfigMapSlot)].content.Data?
    && IdOf(p, DeploymentSlot) in s.children
    && s.children[IdOf(p, DeploymentSlot)].content
       == Pod(p.enc.sha256(s.children[IdOf(p, ConfigMapSlot)].content.yaml), p.image)
  }

  /** Without foreign edits, what a reconcile has passed stays as it left it. */
  predicate Ordered(p: Params, s: State) {
    && OwnChildren(p, s)
    && match s.pc
       case Ensure(slot, plan) => Passed(p, s, slot, plan)
       case Have(slot, plan, read) => Passed(p, s, slot, plan) && read == Get(s.children, IdOf(p, slot))
       case Report(o) => o == IsReady ==> HashIsCurrent(p, s)
       case _ => true
  }

  predicate Passed(p: Params, s: State, slot: Slot, plan: Plan) {
    && plan.Deploy? && plan.hash == p.enc.sha256(plan.yaml)
    && (!slot.ConfigMapSlot? ==> Deployed(p, s, ConfigMapSlot, plan))
    && (slot.ServiceSlot? ==> Deployed(p, s, DeploymentSlot, plan))
  }

  lemma AdvanceOrdered(p: Params, s: State, r: Reply)
    requires Ordered(p, s) && CanAdvance(s)
    ensures Ordered(p, Advance(p, s, r))
  {
    match s.pc {
      case Fetch(g) =>
        DeployedIff(p.enc, p.image, g, Get(s.providers, GuardWatch.ProviderKey(p.key, g)));
      case Have(_, _, _) => WriteOrdered(p, s, r);
      case _ =>
    }
  }

  /** What a write leaves behind when nobody else writes. */
  lemma WriteEffect(p: Params, s: State, r: Reply)
    requires s.pc.Have? && s.pc.plan.Deploy? && s.pc.read == Get(s.children, IdOf(p, s.pc.slot))
    ensures var s' := Write(p, s, r);
            var slot, want := s.pc.slot, Wanted(p, s.pc.slot, s.pc.plan);
            && (s'.children == s.children || s'.children == s.children[IdOf(p, slot) := want])
            && (s'.pc != FAILED ==> s'.pc == Next(slot, s.pc.plan) && Get(s'.children, IdOf(p, slot)) == Some(want))
  {
  }

  lemma WriteOrdered(p: Params, s: State, r: Reply)
    requires Ordered(p, s) && s.pc.Have?
    ensures Ordered(p, Write(p, s, r))
  {
    var s' := Write(p, s, r);
    var slot, plan := s.pc.slot, s.pc.plan;
    WriteEffect(p, s, r);
    assert OwnChildren(p, s');
    if s'.pc != FAILED {
      assert Deployed(p, s', slot, plan);
      if !slot.ConfigMapSlot? { assert Deployed(p, s', ConfigMapSlot, plan); }
    }
  }

  /** A step that changes the Deployment writes the hash of what is in the ConfigMap. */
  lemma DeploymentWriteFollowsConfigMap(p: Params, s: State, r: Reply)
    requires Ordered(p, s) && CanAdvance(s)
    requires Get(Advance(p, s, r).children, IdOf(p, DeploymentSlot)) != Get(s.children, IdOf(p, DeploymentSlot))
    ensures var s' := Advance(p, s, r);
            IdOf(p, DeploymentSlot) in s'.children && HeldConfig(p, s, s'.children[IdOf(p, DeploymentSlot)].content)
  {
    assert s.pc.Have?;
    WriteEffect(p, s, r);
    assert s.pc.slot == DeploymentSlot;
    assert Deployed(p, s, ConfigMapSlot, s.pc.plan);
  }

  predicate HeldConfig(p: Params, s: State, c: Content) {
    && IdOf(p, ConfigMapSlot) in s.children && s.children[IdOf(p, ConfigMapSlot)].content.Data?
    && c == Pod(p.enc.sha256(s.children[IdOf(p, ConfigMapSlot)].content.yaml), p.image)
  }

  ghost predicate OwnRun(p: Params, ss: seq<State>) {
    && ss != [] && Init(ss[0]) && ss[0].children == map[]
    && forall i | 0 <= i < |ss| - 1 :: OwnStep(p, ss[i], ss[i + 1])
  }

  /** The Deployment's hash in state n is that of a configuration the ConfigMap held
      in that state or an earlier one. */
  ghost predicate HashJustified(p: Params, ss: seq<State>, n: nat)
    requires n < |ss|
  {
    IdOf(p, DeploymentSlot) in ss[n].children ==>
      exists j :: 0 <= j <= n && HeldConfig(p, ss[j], ss[n].children[IdOf(p, DeploymentSlot)].content)
  }

  lemma {:induction false} OwnRunOrdered(p: Params, ss: seq<State>, n: nat)
    requires OwnRun(p, ss) && n < |ss|
    ensures Ordered(p, ss[n]) && HashJustified(p, ss, n)
    decreases n
  {
    if n > 0 {
      OwnRunOrdered(p, ss, n - 1);
      var s, s' := ss[n - 1], ss[n];
      assert OwnStep(p, ss[n - 1], ss[n - 1 + 1]);
      if CanAdvance(s) && exists r :: s' == Advance(p, s, r) {
        var r :| s' == Advance(p, s, r);
        AdvanceOrdered(p, s, r);
        if Get(s'.children, IdOf(p, DeploymentSlot)) != Get(s.children, IdOf(p, DeploymentSlot)) {
          DeploymentWriteFollowsConfigMap(p, s, r);
          assert HeldConfig(p, ss[n - 1], s'.children[IdOf(p, DeploymentSlot)].content);
        } else if IdOf(p, DeploymentSlot) in s'.children {
          var j :| 0 <= j <= n - 1 && HeldConfig(p, ss[j], s.children[IdOf(p, DeploymentSlot)].content);
        }
      } else {
        var e: Edit :| !e.EditChild? && s' == Edited(p, s, e);
        assert s'.children == s.children && s'.pc == s.pc;
        if IdOf(p, DeploymentSlot) in s'.children {
          var j :| 0 <= j <= n - 1 && HeldConfig(p, ss[j], s.children[IdOf(p, DeploymentSlot)].content);
        }
      }
    }
  }

  /** Config-hash ordering, at every step of every run without foreign edits, failed
      calls included: the Deployment's hash annotation is the hash of a configuration
      that has been in the ConfigMap; and when a reconcile reports success, it is the
      hash of the configuration that is in the ConfigMap at that moment. */
  lemma HashFollowsConfig(p: Params, ss: seq<State>, n: nat)
    requires OwnRun(p, ss) && n < |ss|
    ensures HashJustified(p, ss, n)
    ensures ss[n].pc == Report(IsReady) ==> HashIsCurrent(p, ss[n])
  {
    OwnRunOrdered(p, ss, n);
  }

  // ----------------------------------------------------------------- settling

  function Expected(plan: Plan): Outcome {
    match plan
    case Deploy(_, _) => IsReady
    case Stop(r) => IsNotReady(r)
  }

  /** How many of the three objects and the status differ from what is wanted. */
  function Wrong(p: Params, s: State): nat
    requires s.guard.Some?
  {
    var plan := CurrentPlan(p, s);
    (if s.status == Shown(Expected(plan), s.generation) then 0 else 1) +
    (if plan.Stop? then 0 else
       (if Deployed(p, s, ConfigMapSlot, plan) then 0 else 1) +
       (if Deployed(p, s, DeploymentSlot, plan) then 0 else 1) +
       (if Deployed(p, s, ServiceSlot, plan) then 0 else 1))
  }

  predicate Foreign(p: Params, s: State, slot: Slot) {
    IdOf(p, slot) in s.children && s.children[IdOf(p, slot)].owner == Other
  }

  predicate NoForeign(p: Params, s: State) {
    !Foreign(p, s, ConfigMapSlot) && !Foreign(p, s, DeploymentSlot) && !Foreign(p, s, ServiceSlot)
  }

  /** The caller's side of settling: the outcome is not one that is retried, and no
      adapter object that is needed belongs to someone else. */
  predicate Settleable(p: Params, s: State) {
    && s.guard.Some?
    && match CurrentPlan(p, s)
       case Deploy(_, _) => NoForeign(p, s)
       case Stop(r) => IsTerminal(r)
  }

  /** With fixed inputs: the reconcile in flight works on them. */
  predicate Fresh(p: Params, s: State)
    requires s.guard.Some?
  {
    && (s.pc == Idle || s.seen == s.generation)
    && match s.pc
       case Idle => s.queued || Wrong(p, s) == 0
       case Fetch(g) => s.guard == Some(g) && p.image != ""
       case Ensure(slot, plan) => OnTrack(p, s, slot, plan)
       case Have(slot, plan, read) => OnTrack(p, s, slot, plan) && read == Get(s.children, IdOf(p, slot))
       case Report(o) =>
         && o == Expected(CurrentPlan(p, s))
         && (o == IsReady ==> AllDeployed(p, s, CurrentPlan(p, s)))
  }

  function Rank(pc: Pc): nat {
    match pc
    case Idle => 0
    case Report(_) => 1
    case Have(slot, _, _) => (match slot case ServiceSlot => 2 case DeploymentSlot => 4 case ConfigMapSlot => 6)
    case Ensure(slot, _) => (match slot case ServiceSlot => 3 case DeploymentSlot => 5 case ConfigMapSlot => 7)
    case Fetch(_) => 8
  }

  /** Lexicographic: what is wrong, whether the Guard is queued, what is left of the
      reconcile in flight. */
  function Measure(p: Params, s: State): nat
    requires s.guard.Some?
  {
    40 * Wrong(p, s) + (if s.queued then 15 else 0) + Rank(s.pc)
  }

  function Tick(p: Params, s: State): State
    requires CanAdvance(s)
  {
    Advance(p, s, Done)
  }

  /** What one successful call does on the way to rest. */
  predicate Settling(p: Params, s: State, s': State) {
    && s'.guard == s.guard && s'.generation == s.generation && s'.providers == s.providers && s.guard.Some?
    && Settleable(p, s') && Fresh(p, s')
    && (s'.pc.Have? ==> s'.pc.plan.Deploy?)
    && Measure(p, s') < Measure(p, s)
    && Wrong(p, s') <= Wrong(p, s)
  }

  lemma TickSettles(p: Params, s: State)
    requires Settleable(p, s) && Fresh(p, s) && CanAdvance(s)
    ensures Settling(p, s, Tick(p, s))
  {
    match s.pc {
      case Have(_, _, _) =>
        WriteSettles(p, s);
        AfterWriteSettles(p, s, Write(p, s, Done));
      case Report(_) => ReportSettles(p, s);
      case Idle => StartSettles(p, s);
      case _ => ReadSettles(p, s);
    }
  }

  lemma StartSettles(p: Params, s: State)
    requires Settleable(p, s) && Fresh(p, s) && s.pc == Idle && s.queued
    ensures Settling(p, s, Tick(p, s))
  {
  }

  lemma ReadSettles(p: Params, s: State)
    requires Settleable(p, s) && Fresh(p, s) && (s.pc.Fetch? || s.pc.Ensure?)
    ensures Settling(p, s, Tick(p, s))
  {
  }

  lemma ReportSettles(p: Params, s: State)
    requires Settleable(p, s) && Fresh(p, s) && s.pc.Report?
    ensures Settling(p, s, Conclude(s, Done))
  {
  }

  lemma AfterWriteSettles(p: Params, s: State, s': State)
    requires Settleable(p, s) && Fresh(p, s) && s.pc.Have?
    requires s' == s.(children := s'.children, queued := s'.queued, pc := Next(s.pc.slot, s.pc.plan))
    requires Deployed(p, s', s.pc.slot, s.pc.plan) && NoForeign(p, s')
    requires (s'.children == s.children && s'.queued == s.queued) || Wrong(p, s') < Wrong(p, s)
    requires forall a :: Deployed(p, s, a, s.pc.plan) ==> Deployed(p, s', a, s.pc.plan)
    ensures Settling(p, s, s')
  {
  }

  lemma WriteSettles(p: Params, s: State)
    requires Settleable(p, s) && s.pc.Have? && Fresh(p, s)
    ensures var s' := Write(p, s, Done);
            && Deployed(p, s', s.pc.slot, s.pc.plan)
            && s'.pc == Next(s.pc.slot, s.pc.plan)
            && s' == s.(children := s'.children, queued := s'.queued, pc := s'.pc)
            && ((s'.children == s.children && s'.queued == s.queued) || Wrong(p, s') < Wrong(p, s))
            && NoForeign(p, s')
            && (forall a :: Deployed(p, s, a, s.pc.plan) ==> Deployed(p, s', a, s.pc.plan))
  {
    var Have(slot, plan, read) := s.pc;
    var s' := Write(p, s, Done);
    if read != Some(Wanted(p, slot, plan)) {
      assert s'.children == s.children[IdOf(p, slot) := Wanted(p, slot, plan)];
    }
  }

  /** Run the loop on fixed inputs with every call succeeding. */
  function Settle(p: Params, s: State): (r: State)
    requires Settleable(p, s) && Fresh(p, s) && (s.pc.Have? ==> s.pc.plan.Deploy?)
    ensures r.pc == Idle && !r.queued
    ensures r.guard == s.guard && r.generation == s.generation && r.providers == s.providers
    ensures Wrong(p, r) == 0
    decreases Measure(p, s)
  {
    if CanAdvance(s) then
      TickSettles(p, s);
      Settle(p, Tick(p, s))
    else s
  }

  /** Settling: from any adapter objects and any status, on inputs that do not
      change and calls that succeed, the loop comes to rest, and then the three
      objects and the status are exactly as wanted. */
  lemma LoopSettles(p: Params, s: State)
    requires Settleable(p, s) && Init(s)
    ensures var r := Settle(p, s);
            && r.status == Shown(Expected(CurrentPlan(p, s)), s.generation)
            && (CurrentPlan(p, s).Deploy? ==> AllDeployed(p, r, CurrentPlan(p, s)))
  {
  }

  /** A reconcile of a settled Guard changes nothing. */
  lemma {:induction false} SettledStaysPut(p: Params, s: State)
    requires Settleable(p, s) && Fresh(p, s) && Wrong(p, s) == 0 && (s.pc.Have? ==> s.pc.plan.Deploy?)
    ensures Settle(p, s).children == s.children && Settle(p, s).status == s.status
    decreases Measure(p, s)
  {
    if CanAdvance(s) {
      TickSettles(p, s);
      var s' := Tick(p, s);
      if s.pc.Have? { WriteSettles(p, s); }
      assert s'.children == s.children && s'.status == s.status;
      SettledStaysPut(p, s');
    }
  }

  // ------------------------------------------------------------ not settling

  /** A retried outcome is bound to come. */
  predicate Blocked(p: Params, s: State) {
    && s.guard.Some? && !Settleable(p, s)
    && match s.pc
       case Idle => s.queued
       case Fetch(g) => s.guard == Some(g) && p.image != ""
       case Ensure(slot, plan) => plan == CurrentPlan(p, s) && plan.Deploy? && ForeignFrom(p, s, slot)
       case Have(slot, plan, read) =>
         plan == CurrentPlan(p, s) && plan.Deploy? && ForeignFrom(p, s, slot) && read == Get(s.children, IdOf(p, slot))
       case Report(o) => o == IsNotReady(ReconcileFailed)
  }

  predicate ForeignFrom(p: Params, s: State, slot: Slot) {
    match slot
    case ConfigMapSlot => !NoForeign(p, s)
    case DeploymentSlot => Foreign(p, s, DeploymentSlot) || Foreign(p, s, ServiceSlot)
    case ServiceSlot => Foreign(p, s, ServiceSlot)
  }

  lemma AdvanceBlocked(p: Params, s: State, r: Reply)
    requires Blocked(p, s) && CanAdvance(s)
    ensures Blocked(p, Advance(p, s, r))
  {
    if s.pc.Have? { WriteBlocked(p, s, r); }
  }

  lemma WriteBlocked(p: Params, s: State, r: Reply)
    requires Blocked(p, s) && s.pc.Have?
    ensures Blocked(p, Write(p, s, r))
  {
    var slot := s.pc.slot;
    var s' := Write(p, s, r);
    if !Foreign(p, s, slot) {
      assert s' == s.(children := s'.children, queued := s'.queued, pc := s'.pc);
      assert s'.pc == FAILED || s'.pc == Next(slot, s.pc.plan);
      OthersUntouched(p, s, r);
    }
  }

  lemma OthersUntouched(p: Params, s: State, r: Reply)
    requires s.pc.Have? && s.pc.plan.Deploy? && s.pc.read == Get(s.children, IdOf(p, s.pc.slot))
    ensures forall a :: Foreign(p, Write(p, s, r), a) == Foreign(p, s, a)
  {
  }

  /** The converse: on fixed inputs that are not settleable, the loop never rests,
      whatever the replies. */
  lemma {:induction false} NeverRests(p: Params, s: State, rs: seq<Reply>)
    requires s.guard.Some? && !Settleable(p, s) && Blocked(p, s)
    ensures CanAdvance(Play(Reconciling(p), s, rs))
    decreases |rs|
  {
    if rs != [] {
      AdvanceBlocked(p, s, rs[0]);
      NeverRests(p, Advance(p, s, rs[0]), rs[1..]);
    }
  }

  /** The loop is at rest after at most `n` successful calls. */
  predicate RestsAfter(p: Params, s: State, n: nat) {
    !CanAdvance(Play(Reconciling(p), s, seq(n, i => Done)))
  }

  /** Settling if and only if: with calls that succeed, a queued Guard comes to rest
      exactly when its outcome is not a retried one and no needed adapter object is
      controlled by someone else. */
  lemma SettlesIff(p: Params, s: State)
    requires s.guard.Some? && Init(s)
    ensures Settleable(p, s) <==> exists n: nat :: RestsAfter(p, s, n)
  {
    if Settleable(p, s) {
      var n := Measure(p, s);
      PlaySettles(p, s, n);
      assert RestsAfter(p, s, n);
    } else {
      forall n: nat ensures !RestsAfter(p, s, n) {
        NeverRests(p, s, seq(n, i => Done));
      }
    }
  }

  lemma {:induction false} PlaySettles(p: Params, s: State, n: nat)
    requires Settleable(p, s) && Fresh(p, s) && (s.pc.Have? ==> s.pc.plan.Deploy?) && n >= Measure(p, s)
    ensures Play(Reconciling(p), s, seq(n, i => Done)) == Settle(p, s) && !CanAdvance(Settle(p, s))
    decreases n
  {
    if CanAdvance(s) {
      TickSettles(p, s);
      assert seq(n, i => Done)[1..] == seq(n - 1, i => Done);
      PlaySettles(p, Tick(p, s), n - 1);
    }
  }
}
