/** Nothing is missed of a ToolGateway: over whole runs of its reconciler, with the spec,
    the guards and the policy edited between any two calls and calls that fail. */
module GatewayLoop {
  import opened Wrappers
  import opened Objects
  import opened Api
  import opened GatewayWatch
  import opened GatewayMessages
  import opened GatewayConditions

  /** The guardrails can be wired: there is none, or one whose Guard is Ready. */
  predicate Wireable(key: Key, s: State)
    requires s.spec.Some?
  {
    var refs := s.spec.value.guardrails;
    |refs| == 0 || (|refs| == 1 && GuardReady(s, Resolve(refs[0], key.ns)))
  }

  predicate GuardReady(s: State, guard: Key) {
    guard in s.guards && s.guards[guard].Ready?
  }

  /** The policy is that of the one guard, or there is none of ours. */
  predicate PolicyRight(key: Key, s: State)
    requires s.spec.Some?
  {
    var refs := s.spec.value.guardrails;
    if |refs| == 1 then
      && s.policy.Some? && s.policy.value.owner == Mine
      && Points(s.policy.value.content, key.name, Resolve(refs[0], key.ns))
    else s.policy.None? || s.policy.value.owner != Mine
  }

  /** Ready=True is shown for this generation. */
  predicate ShownReady(cs: seq<Condition>, generation: nat) {
    var ready := Find(cs, ReadyKind);
    && ready.Some? && ready.value.status && ready.value.reason == Reconciled && ready.value.message == Configured
    && ready.value.observedGeneration == generation
  }

  /** Everything is as the present spec and the present Guard call for. */
  predicate AtRest(key: Key, s: State)
    requires s.spec.Some?
  {
    && Wireable(key, s) && PolicyRight(key, s) && ShownReady(s.conditions, s.generation)
    && Find(s.conditions, GuardrailsUnsupported).None?
  }

  predicate OneGuard(key: Key, s: State, guard: Key)
    requires s.spec.Some?
  {
    var refs := s.spec.value.guardrails;
    |refs| == 1 && Resolve(refs[0], key.ns) == guard && GuardReady(s, guard)
  }

  /** The reconcile in flight works on present data. */
  predicate Current(key: Key, s: State)
    requires s.pc != Idle
  {
    var mem := s.pc.mem;
    && SameGateway(s) && s.spec.value.owned
    && mem.guardrails == s.spec.value.guardrails && mem.generation == s.generation
    && match s.pc
       case ReadPolicy(_, guard) => OneGuard(key, s, guard)
       case WritePolicy(_, guard, read) =>
         && OneGuard(key, s, guard)
         && (if read.Some? && read.value.owner == Mine then s.policy == read
             else s.policy.None? || s.policy.value.owner != Mine)
       case Report(_, o) => o == Success ==> Wireable(key, s) && PolicyRight(key, s)
       case _ => true
  }

  ghost predicate LoopInv(key: Key, s: State) {
    && Inv(s)
    && (!s.queued ==>
          if s.pc == Idle then s.spec.Some? && s.spec.value.owned ==> AtRest(key, s) else Current(key, s))
  }

  lemma WriteCurrent(key: Key, s: State, r: Reply, x: Input)
    requires s.pc.WritePolicy? && Current(key, s) && !WriteStep(key, s, r, x).queued
    ensures Current(key, WriteStep(key, s, r, x))
  {
    WriteFrame(key, s, r, x);
    var s' := WriteStep(key, s, r, x);
    assert s'.policy == s.policy || !Wakes(s.policy, s'.policy);
  }

  lemma ReportAtRest(key: Key, s: State, r: Reply, x: Input)
    requires Inv(s) && s.pc.Report? && Current(key, s) && !ReportStep(s, r, x).queued
    ensures AtRest(key, ReportStep(s, r, x))
  {
    var Report(mem, o) := s.pc;
    assert o == Success && r == Done;
    PatchPersists(s.conditions, mem, o, x.now);
    FindAfterSet(mem.conditions, ReadyConditionFor(o, mem.generation, x.now), ReadyKind);
  }

  lemma AdvanceKeepsLoop(key: Key, s: State, r: Reply, x: Input)
    requires LoopInv(key, s) && CanAdvance(s)
    ensures LoopInv(key, Advance(key, s, r, x))
  {
    AdvanceKeeps(key, s, r, x);
    if !Advance(key, s, r, x).queued {
      if s.pc.WritePolicy? {
        WriteFrame(key, s, r, x);
        WriteCurrent(key, s, r, x);
      } else if s.pc.Report? {
        ReportAtRest(key, s, r, x);
      } else if s.pc.Guardrails? {
        GuardrailsCurrent(key, s, r, x);
      }
    }
  }

  lemma GuardrailsCurrent(key: Key, s: State, r: Reply, x: Input)
    requires s.pc.Guardrails? && Current(key, s) && !GuardrailsStep(key, s, r, x).queued
    ensures GuardrailsStep(key, s, r, x).pc != Idle && Current(key, GuardrailsStep(key, s, r, x))
  {
  }

  lemma EditKeepsLoop(key: Key, s: State, e: Edit)
    requires LoopInv(key, s)
    ensures LoopInv(key, Edited(key, s, e))
  {
    var s' := Edited(key, s, e);
    if !s'.queued && s.spec.Some? {
      forall guard | |s.spec.value.guardrails| == 1 && guard == Resolve(s.spec.value.guardrails[0], key.ns)
        ensures GuardReady(s', guard) == GuardReady(s, guard)
      {
        if e.EditGuard? { assert !Names(s.spec.value.guardrails, key.ns, e.guard); }
      }
    }
  }

  lemma {:induction false} RunKeepsLoop(key: Key, ss: seq<State>, n: nat)
    requires Run(key, ss) && n < |ss|
    ensures LoopInv(key, ss[n])
    decreases n
  {
    if n > 0 {
      RunKeepsLoop(key, ss, n - 1);
      var s, s' := ss[n - 1], ss[n];
      assert Step(key, ss[n - 1], ss[n - 1 + 1]);
      if CanAdvance(s) && exists r, x :: s' == Advance(key, s, r, x) {
        var r, x :| s' == Advance(key, s, r, x);
        AdvanceKeepsLoop(key, s, r, x);
      } else {
        var e :| s' == Edited(key, s, e);
        EditKeepsLoop(key, s, e);
      }
    }
  }

  /** In every state of every run, drift and failing calls included: a ToolGateway of this
      controller that is neither queued nor in flight names no guard, or one Guard that
      exists and is Ready now; its policy is exactly that Guard's, or there is none of
      ours; and its conditions say Ready=True for the present generation, and no
      GuardrailsUnsupported. */
  lemma NothingMissed(key: Key, ss: seq<State>, n: nat)
    requires Run(key, ss) && n < |ss|
    requires ss[n].pc == Idle && !ss[n].queued && ss[n].spec.Some? && ss[n].spec.value.owned
    ensures AtRest(key, ss[n])
  {
    RunKeepsLoop(key, ss, n);
  }

  // ------------------------------------------------------------ several guards

  function Fresh(spec: Spec): State {
    State(Some(spec), 0, 1, [], map[], None, true, Idle)
  }

  function Ticked(key: Key, s: State, now: int): State
    requires CanAdvance(s)
  {
    Advance(key, s, Done, Input(now, ""))
  }

  /** What is shown of a ToolGateway with several guards, as a run of five successful calls:
      a GuardrailsUnsupported condition, and Ready=False with the reason of any guardrails
      failure, not with a reason of its own. */
  lemma SeveralGuardsShown(key: Key, spec: Spec, now: int)
    requires spec.owned && |spec.guardrails| > 1
    ensures var s0 := Fresh(spec);
            var s1 := Ticked(key, s0, now);
            var s2 := Ticked(key, s1, now);
            var s3 := Ticked(key, s2, now);
            var s4 := Ticked(key, s3, now);
            var s5 := Ticked(key, s4, now);
            && Run(key, [s0, s1, s2, s3, s4, s5]) && s5.pc == Idle
            && s5.conditions == [Condition(GuardrailsUnsupported, true, MultipleGuardsNotSupported, OneSlotOnly, 1,
                                           now),
                                 Condition(ReadyKind, false, GuardrailsFailed, MultipleGuards, 1, now)]
  {
    var s0 := Fresh(spec);
    var s1 := Ticked(key, s0, now);
    var s2 := Ticked(key, s1, now);
    var s3 := Ticked(key, s2, now);
    var s4 := Ticked(key, s3, now);
    var s5 := Ticked(key, s4, now);
    var unsupported := UnsupportedCondition(1, now);
    assert SetCondition([], unsupported) == [unsupported];
    assert s4.pc == Report(s4.pc.mem, Failure(GuardrailsFailed, MultipleGuards));
    assert s4.pc.mem.conditions == [unsupported];
    OneMore(unsupported, ReadyConditionFor(s4.pc.outcome, 1, now));
    TickIsStep(key, s0, now);
    TickIsStep(key, s1, now);
    TickIsStep(key, s2, now);
    TickIsStep(key, s3, now);
    TickIsStep(key, s4, now);
    var ss := [s0, s1, s2, s3, s4, s5];
    forall i | 0 <= i < |ss| - 1 ensures Step(key, ss[i], ss[i + 1]) { }
  }

  lemma OneMore(a: Condition, b: Condition)
    requires a.kind != b.kind
    ensures SetCondition([a], b) == [a, b]
  {
    assert [a][1..] == [];
    assert SetCondition([], b) == [b];
  }

  lemma TickIsStep(key: Key, s: State, now: int)
    requires CanAdvance(s)
    ensures Step(key, s, Ticked(key, s, now))
  {
  }
}
