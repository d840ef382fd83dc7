/** The ToolGateway loop settles: on inputs that do not change and calls that succeed it
    comes to rest, with everything in place, exactly when it can. */
module GatewaySettling {
  import opened Wrappers
  import opened Objects
  import opened Api
  import opened Replay
  import opened GatewayConditions
  import opened GatewayLoop

  /** There is nothing to do, or the guardrails can be wired and the name of the policy is
      not taken by somebody else. */
  predicate Settleable(key: Key, s: State) {
    s.spec.Some? && s.spec.value.owned ==>
      && Wireable(key, s)
      && (|s.spec.value.guardrails| == 1 ==> s.policy.None? || s.policy.value.owner != Other)
  }

  predicate ConditionsRight(s: State) {
    && HasCondition(s.conditions, ReadyConditionFor(Success, s.generation, 0))
    && Find(s.conditions, GuardrailsUnsupported).None?
  }

  /** How many of policy and conditions differ from what is wanted. */
  function Wrong(key: Key, s: State): nat {
    if s.spec.None? || !s.spec.value.owned then 0
    else (if PolicyRight(key, s) then 0 else 1) + (if ConditionsRight(s) then 0 else 1)
  }

  /** With fixed inputs: the reconcile in flight works on them. */
  ghost predicate Steady(key: Key, s: State) {
    && Inv(s)
    && (s.pc != Idle ==> Current(key, s))
    && (s.pc.WritePolicy? ==> s.pc.read == s.policy)
    && (s.pc.Report? ==> s.pc.outcome == Success)
  }

  function Rank(pc: Pc): nat {
    match pc
    case Idle => 0
    case Report(_, _) => 1
    case WritePolicy(_, _, _) => 2
    case ReadPolicy(_, _) => 3
    case Guardrails(_) => 4
    case Gateway(_) => 5
    case Parameters(_) => 6
  }

  /** Lexicographic: what is wrong, whether the ToolGateway is queued, what is left of the
      reconcile in flight. */
  function Measure(key: Key, s: State): nat {
    20 * Wrong(key, s) + (if s.queued then 10 else 0) + Rank(s.pc)
  }

  function Tick(key: Key, s: State, x: Input): State
    requires CanAdvance(s)
  {
    Advance(key, s, Done, x)
  }

  /** What one successful call does on the way to rest. */
  ghost predicate Settling(key: Key, s: State, s': State) {
    && s'.spec == s.spec && s'.generation == s.generation && s'.guards == s.guards
    && Settleable(key, s') && Steady(key, s') && Measure(key, s') < Measure(key, s)
  }

  lemma ReportSettles(key: Key, s: State, x: Input)
    requires Settleable(key, s) && Steady(key, s) && s.pc.Report?
    ensures Settling(key, s, ReportStep(s, Done, x))
  {
    var mem := s.pc.mem;
    var ready := ReadyConditionFor(Success, mem.generation, x.now);
    AdvanceKeeps(key, s, Done, x);
    PatchPersists(s.conditions, mem, Success, x.now);
    FindAfterSet(mem.conditions, ready, ReadyKind);
    FindAfterRemove(s.conditions, GuardrailsUnsupported, ReadyKind);
    if ConditionsRight(s) {
      RemoveAbsent(s.conditions, GuardrailsUnsupported);
      SetIdle(s.conditions, ready);
    }
  }

  lemma WriteSettles(key: Key, s: State, x: Input)
    requires Settleable(key, s) && Steady(key, s) && s.pc.WritePolicy?
    ensures Settling(key, s, WriteStep(key, s, Done, x))
  {
    AdvanceKeeps(key, s, Done, x);
    WriteFrame(key, s, Done, x);
    WriteDone(key, s, x);
  }

  /** A successful write leaves exactly the policy that is wanted. */
  lemma WriteDone(key: Key, s: State, x: Input)
    requires s.pc.WritePolicy? && s.pc.read == s.policy && (s.policy.Some? ==> s.policy.value.owner != Other)
    ensures var s' := WriteStep(key, s, Done, x);
            && s'.policy == Some(Owned(Mine, PolicyFor(key.name, s.pc.guard)))
            && s'.pc == GuardrailsDone(s.pc.mem)
            && (s'.queued ==> s.queued || s'.policy != s.policy)
  {
  }

  lemma GuardrailsSettles(key: Key, s: State, x: Input)
    requires Settleable(key, s) && Steady(key, s) && s.pc.Guardrails?
    ensures Settling(key, s, GuardrailsStep(key, s, Done, x))
  {
    GuardrailsKeeps(key, s, Done, x);
  }

  lemma PlainSettles(key: Key, s: State, x: Input)
    requires Settleable(key, s) && Steady(key, s) && CanAdvance(s)
    requires s.pc == Idle || s.pc.Parameters? || s.pc.Gateway? || s.pc.ReadPolicy?
    ensures Settling(key, s, Tick(key, s, x))
  {
    AdvanceKeeps(key, s, Done, x);
  }

  lemma TickSettles(key: Key, s: State, x: Input)
    requires Settleable(key, s) && Steady(key, s) && CanAdvance(s)
    ensures Settling(key, s, Tick(key, s, x))
  {
    match s.pc {
      case Report(_, _) => ReportSettles(key, s, x);
      case WritePolicy(_, _, _) => WriteSettles(key, s, x);
      case Guardrails(_) => GuardrailsSettles(key, s, x);
      case _ => PlainSettles(key, s, x);
    }
  }

  /** A sequence of successful calls, the clock and error texts being whatever they are. */
  function Successes(xs: seq<Input>): seq<Call> {
    seq(|xs|, i requires 0 <= i < |xs| => Call(Done, xs[i]))
  }

  lemma {:induction false} PlaySettles(key: Key, s: State, xs: seq<Input>)
    requires Settleable(key, s) && Steady(key, s) && |xs| >= Measure(key, s)
    ensures !CanAdvance(Play(Reconciling(key), s, Successes(xs)))
    decreases |xs|
  {
    if CanAdvance(s) {
      var cs := Successes(xs);
      TickSettles(key, s, xs[0]);
      assert cs[0] == Call(Done, xs[0]) && cs[1..] == Successes(xs[1..]);
      PlaySettles(key, Tick(key, s, xs[0]), xs[1..]);
    }
  }

  // ------------------------------------------------------------ not settling

  /** A failure is bound to come. */
  predicate Blocked(key: Key, s: State) {
    && s.spec.Some? && s.spec.value.owned && !Settleable(key, s)
    && (s.pc == Idle ==> s.queued)
    && (s.pc != Idle ==> s.pc.mem.guardrails == s.spec.value.guardrails)
    && match s.pc
       case ReadPolicy(_, _) => |s.spec.value.guardrails| == 1 && s.policy.Some? && s.policy.value.owner == Other
       case WritePolicy(_, _, read) => read.Some? && read.value.owner == Other
       case Report(_, o) => o.Failure?
       case _ => true
  }

  lemma AdvanceBlocked(key: Key, s: State, r: Reply, x: Input)
    requires Blocked(key, s) && CanAdvance(s)
    ensures Blocked(key, Advance(key, s, r, x))
  {
  }

  /** The converse: on fixed inputs that are not settleable the loop never rests, whatever
      the replies. */
  lemma {:induction false} NeverRests(key: Key, s: State, cs: seq<Call>)
    requires Blocked(key, s)
    ensures CanAdvance(Play(Reconciling(key), s, cs))
    decreases |cs|
  {
    if cs != [] {
      AdvanceBlocked(key, s, cs[0].reply, cs[0].input);
      NeverRests(key, Advance(key, s, cs[0].reply, cs[0].input), cs[1..]);
    }
  }

  ghost predicate RestsAfter(key: Key, s: State, n: nat) {
    forall xs: seq<Input> :: |xs| == n ==> !CanAdvance(Play(Reconciling(key), s, Successes(xs)))
  }

  /** Settling if and only if: from any consistent conditions and any policy, with calls
      that succeed, a queued ToolGateway comes to rest exactly when it is gone, not ours, or
      can be wired without taking a policy from somebody else.  What it has at rest is said
      by GatewayLoop.NothingMissed. */
  lemma SettlesIff(key: Key, s: State)
    requires Consistent(s.conditions) && s.pc == Idle && s.queued
    ensures Settleable(key, s) <==> exists n: nat :: RestsAfter(key, s, n)
  {
    if Settleable(key, s) {
      var n := Measure(key, s);
      forall xs: seq<Input> | |xs| == n ensures !CanAdvance(Play(Reconciling(key), s, Successes(xs))) {
        PlaySettles(key, s, xs);
      }
      assert RestsAfter(key, s, n);
    } else {
      forall n: nat ensures !RestsAfter(key, s, n) {
        var xs := seq(n, i => Input(0, ""));
        NeverRests(key, s, Successes(xs));
        assert |xs| == n;
      }
    }
  }
}
