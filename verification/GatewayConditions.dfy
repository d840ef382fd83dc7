/** One ToolGateway under its reconciler: its status conditions and its guardrail
    policy.  One step per API call; the spec, the guards and the policy may be edited
    between any two calls, and the ToolGateway deleted and created again.  Changes wake
    the reconciler as its watches do.  It is the only writer of the conditions. */
module GatewayConditions {
  import opened Wrappers
  import opened Objects
  import opened Api
  import opened Replay
  import opened GatewayWatch
  import opened GatewayMessages

  // --------------------------------------------------------------- conditions

  /** Condition types: the two this controller writes, and any other. */
  datatype Kind = ReadyKind | GuardrailsUnsupported | OtherKind(name: string)

  datatype Reason =
    | Reconciled | ParametersFailed | GatewayFailed | GuardrailsFailed | GuardNotFound | GuardNotReady
    | MultipleGuardsNotSupported

  datatype Condition = Condition(
    kind: Kind, status: bool, reason: Reason, message: Message, observedGeneration: nat, since: int)

  function Find(cs: seq<Condition>, kind: Kind): Option<Condition> {
    if cs == [] then None else if cs[0].kind == kind then Some(cs[0]) else Find(cs[1..], kind)
  }

  /** apimeta.SetStatusCondition: update in place, or append.  The transition time
      changes only with the status. */
  function SetCondition(cs: seq<Condition>, c: Condition): seq<Condition> {
    if cs == [] then [c]
    else if cs[0].kind == c.kind then
      [c.(since := if cs[0].status == c.status then cs[0].since else c.since)] + cs[1..]
    else [cs[0]] + SetCondition(cs[1..], c)
  }

  /** apimeta.RemoveStatusCondition. */
  function RemoveCondition(cs: seq<Condition>, kind: Kind): seq<Condition> {
    if cs == [] then []
    else if cs[0].kind == kind then RemoveCondition(cs[1..], kind)
    else [cs[0]] + RemoveCondition(cs[1..], kind)
  }

  /** Equal up to the transition time. */
  predicate SameCondition(a: Condition, b: Condition) {
    a.(since := 0) == b.(since := 0)
  }

  lemma {:induction false} FindAfterSet(cs: seq<Condition>, c: Condition, kind: Kind)
    ensures kind != c.kind ==> Find(SetCondition(cs, c), kind) == Find(cs, kind)
    ensures Find(SetCondition(cs, c), c.kind).Some? && SameCondition(Find(SetCondition(cs, c), c.kind).value, c)
  {
    if cs != [] && cs[0].kind != c.kind {
      FindAfterSet(cs[1..], c, kind);
    }
  }

  /** The transition time is kept exactly as long as the status is. */
  lemma {:induction false} TransitionTime(cs: seq<Condition>, c: Condition)
    ensures Find(SetCondition(cs, c), c.kind).Some?
    ensures Find(SetCondition(cs, c), c.kind).value.since ==
            if Find(cs, c.kind).Some? && Find(cs, c.kind).value.status == c.status then Find(cs, c.kind).value.since
            else c.since
  {
    if cs != [] && cs[0].kind != c.kind { TransitionTime(cs[1..], c); }
  }

  lemma {:induction false} FindAfterRemove(cs: seq<Condition>, gone: Kind, kind: Kind)
    ensures Find(RemoveCondition(cs, gone), kind) == if kind == gone then None else Find(cs, kind)
  {
    if cs != [] {
      FindAfterRemove(cs[1..], gone, kind);
      if cs[0].kind != gone {
        assert ([cs[0]] + RemoveCondition(cs[1..], gone))[1..] == RemoveCondition(cs[1..], gone);
      }
    }
  }

  lemma {:induction false} RemoveAbsent(cs: seq<Condition>, kind: Kind)
    requires Find(cs, kind).None?
    ensures RemoveCondition(cs, kind) == cs
  {
    if cs != [] { RemoveAbsent(cs[1..], kind); }
  }

  /** Setting a condition changes nothing exactly when it is already there. */
  lemma {:induction false} SetIdle(cs: seq<Condition>, c: Condition)
    ensures SetCondition(cs, c) == cs <==> Find(cs, c.kind).Some? && SameCondition(Find(cs, c.kind).value, c)
  {
    if cs == [] {
    } else if cs[0].kind == c.kind {
      assert cs == [cs[0]] + cs[1..];
      var n := c.(since := if cs[0].status == c.status then cs[0].since else c.since);
      if SetCondition(cs, c) == cs { assert cs[0] == n; }
    } else {
      SetIdle(cs[1..], c);
      assert cs == [cs[0]] + cs[1..];
      assert SetCondition(cs, c)[1..] == SetCondition(cs[1..], c);
    }
  }

  // ----------------------------------------------------------------- the state

  datatype PolicySpec = PolicySpec(gateway: string, adapter: string, adapterNs: string)

  type Policy = Owned<PolicySpec>

  /** owned: its class is one of this controller's. */
  datatype Spec = Spec(owned: bool, guardrails: seq<Ref>)

  /** The in-memory ToolGateway of a reconcile: what it read, and its conditions as
      mutated since. */
  datatype Mem = Mem(uid: nat, guardrails: seq<Ref>, generation: nat, read: seq<Condition>, conditions: seq<Condition>)

  datatype Outcome = Success | Failure(reason: Reason, message: Message)

  datatype Pc =
    | Idle
    | Parameters(mem: Mem)
    | Gateway(mem: Mem)
    | Guardrails(mem: Mem)
    | ReadPolicy(mem: Mem, guard: Key)
    | WritePolicy(mem: Mem, guard: Key, read: Option<Policy>)
    | Report(mem: Mem, outcome: Outcome)

  datatype State = State(
    spec: Option<Spec>, uid: nat, generation: nat,
    conditions: seq<Condition>,            // as stored in the cluster
    guards: map<Key, ReadyCondition>,
    policy: Option<Policy>,
    queued: bool,
    pc: Pc)

  /** What the environment contributes to a step: the clock and error texts. */
  datatype Input = Input(now: int, detail: string)

  function UnsupportedCondition(generation: nat, now: int): Condition {
    Condition(GuardrailsUnsupported, true, MultipleGuardsNotSupported,
              OneSlotOnly, generation, now)
  }

  function ReadyConditionFor(o: Outcome, generation: nat, now: int): Condition {
    match o
    case Success =>
      Condition(ReadyKind, true, Reconciled, Configured, generation, now)
    case Failure(reason, message) => Condition(ReadyKind, false, reason, message, generation, now)
  }

  /** buildGuardrailPolicySpec: the adapter Service of the Guard, in its namespace. */
  function PolicyFor(gateway: string, guard: Key): PolicySpec {
    PolicySpec(gateway, guard.name + "-adapter", guard.ns)
  }

  /** The policy targets this gateway and calls the adapter of this Guard: the Service
      called after the Guard, with the suffix -adapter, in the Guard's namespace. */
  predicate Points(p: PolicySpec, gateway: string, guard: Key) {
    p.gateway == gateway && p.adapter == guard.name + "-adapter" && p.adapterNs == guard.ns
  }

  /** The merge patch from `read` to `want`, field by field. */
  function MergePatch(read: Policy, want: Policy, current: Policy): Policy {
    Owned(Patched(read.owner, want.owner, current.owner),
           PolicySpec(Patched(read.content.gateway, want.content.gateway, current.content.gateway),
                      Patched(read.content.adapter, want.content.adapter, current.content.adapter),
                      Patched(read.content.adapterNs, want.content.adapterNs, current.content.adapterNs)))
  }

  // -------------------------------------------------- steps of the reconciler

  function Fail(mem: Mem, reason: Reason, message: Message): Pc {
    Report(mem, Failure(reason, message))
  }

  function GuardrailsDone(mem: Mem): Pc {
    Report(mem.(conditions := RemoveCondition(mem.conditions, GuardrailsUnsupported)), Success)
  }

  /** The policy changes; the watch on owned policies wakes the controller, before or after. */
  function WithPolicy(s: State, policy: Option<Policy>): State {
    s.(policy := policy, queued := s.queued || Wakes(s.policy, policy))
  }

  function DeletePolicy(s: State, mem: Mem, r: Reply, x: Input): State {
    var gone := if r == Refused then s else WithPolicy(s, None);
    gone.(pc := if r == Done then GuardrailsDone(mem)
                else Fail(mem, GuardrailsFailed, DeleteFailed(x.detail)))
  }

  function GetGuardStep(key: Key, s: State, mem: Mem, r: Reply, x: Input): Pc
    requires |mem.guardrails| == 1
  {
    var guard := Resolve(mem.guardrails[0], key.ns);
    if r != Done then Fail(mem, GuardrailsFailed, GetFailed(x.detail))
    else
      match Get(s.guards, guard)
      case None => Fail(mem, GuardNotFound, Detail(x.detail))
      case Some(c) =>
        if c.Ready? then ReadPolicy(mem, guard) else Fail(mem, GuardNotReady, Detail(x.detail))
  }

  function GuardrailsStep(key: Key, s: State, r: Reply, x: Input): State
    requires s.pc.Guardrails?
  {
    var mem := s.pc.mem;
    if |mem.guardrails| == 0 then DeletePolicy(s, mem, r, x)
    else if |mem.guardrails| > 1 then
      s.(pc := Fail(mem.(conditions := SetCondition(mem.conditions, UnsupportedCondition(mem.generation, x.now))),
                    GuardrailsFailed, MultipleGuards))
    else s.(pc := GetGuardStep(key, s, mem, r, x))
  }

  function WriteStep(key: Key, s: State, r: Reply, x: Input): State
    requires s.pc.WritePolicy?
  {
    var WritePolicy(mem, guard, read) := s.pc;
    var want := Owned(Mine, PolicyFor(key.name, guard));
    var failed := Fail(mem, GuardrailsFailed, WriteFailed(x.detail));
    var after := if r == Done then GuardrailsDone(mem) else failed;
    match read
    case None =>
      if r == Refused || s.policy.Some? then s.(pc := failed) else WithPolicy(s, Some(want)).(pc := after)
    case Some(p) =>
      if p.owner == Other then s.(pc := failed)
      else if p == want then s.(pc := GuardrailsDone(mem))
      else if r == Refused || s.policy.None? then s.(pc := failed)
      else
        WithPolicy(s, Some(MergePatch(p, want, s.policy.value))).(pc := after)
  }

  /** The conditions after updateStatusReady or updateStatusNotReady: in memory. */
  function Final(mem: Mem, o: Outcome, now: int): seq<Condition> {
    SetCondition(mem.conditions, ReadyConditionFor(o, mem.generation, now))
  }

  /** The status patch and the end of the reconcile.  The base of the patch is a copy of
      the in-memory object as it is at this point, mutations included; the conditions
      array is replaced whole or left alone.  Every failure is retried. */
  function ReportStep(s: State, r: Reply, x: Input): State
    requires s.pc.Report?
  {
    var Report(mem, o) := s.pc;
    var conditions := if r == Refused || s.spec.None? then s.conditions
                      else Patched(mem.conditions, Final(mem, o, x.now), s.conditions);
    s.(conditions := conditions,
       queued := s.queued || conditions != s.conditions || o != Success || r != Done,
       pc := Idle)
  }

  /** A queued ToolGateway is taken up: one that is gone or not ours is dropped. */
  function StartStep(s: State, r: Reply): State {
    if r != Done then s
    else if s.spec.None? || !s.spec.value.owned then s.(queued := false)
    else
      s.(queued := false,
         pc := Parameters(Mem(s.uid, s.spec.value.guardrails, s.generation, s.conditions, s.conditions)))
  }

  predicate CanAdvance(s: State) {
    s.pc == Idle ==> s.queued
  }

  function Advance(key: Key, s: State, r: Reply, x: Input): State
    requires CanAdvance(s)
  {
    match s.pc
    case Idle => StartStep(s, r)
    case Parameters(mem) => s.(pc := if r == Done then Gateway(mem) else Fail(mem, ParametersFailed, Detail(x.detail)))
    case Gateway(mem) => s.(pc := if r == Done then Guardrails(mem) else Fail(mem, GatewayFailed, Detail(x.detail)))
    case Guardrails(_) => GuardrailsStep(key, s, r, x)
    case ReadPolicy(mem, guard) =>
      s.(pc := if r == Done then WritePolicy(mem, guard, s.policy)
               else Fail(mem, GuardrailsFailed, WriteFailed(x.detail)))
    case WritePolicy(_, _, _) => WriteStep(key, s, r, x)
    case Report(_, _) => ReportStep(s, r, x)
  }

  datatype Call = Call(reply: Reply, input: Input)

  /** The reconciler as a machine that takes replies. */
  function Reconciling(key: Key): Machine<State, Call> {
    Machine(s => CanAdvance(s), (s: State, c: Call) => if CanAdvance(s) then Advance(key, s, c.reply, c.input) else s)
  }

  datatype Edit =
    | EditSpec(spec: Spec)
    | DeleteGateway
    | EditGuard(guard: Key, condition: Option<ReadyCondition>)
    | EditPolicy(policy: Option<Policy>)
    | Nudge

  /** A ToolGateway that did not exist gets a new UID and no conditions. */
  function SpecEdited(s: State, spec: Spec): State {
    if s.spec.None? then s.(spec := Some(spec), uid := s.uid + 1, generation := 1, conditions := [], queued := true)
    else s.(spec := Some(spec), generation := s.generation + 1, queued := true)
  }

  /** The watch on Guards wakes the ToolGateways that name the Guard. */
  function Edited(key: Key, s: State, e: Edit): State {
    match e
    case EditSpec(spec) => SpecEdited(s, spec)
    case DeleteGateway => s.(spec := None, conditions := [], queued := true)
    case EditGuard(k, c) =>
      s.(guards := Put(s.guards, k, c),
         queued := s.queued || (s.spec.Some? && Names(s.spec.value.guardrails, key.ns, k)))
    case EditPolicy(p) => WithPolicy(s, p)
    case Nudge => s.(queued := true)
  }

  ghost predicate Step(key: Key, s: State, s': State) {
    || (CanAdvance(s) && exists r, x :: s' == Advance(key, s, r, x))
    || (exists e :: s' == Edited(key, s, e))
  }

  ghost predicate Init(s: State) {
    s.pc == Idle && s.conditions == [] && s.queued
  }

  ghost predicate Run(key: Key, ss: seq<State>) {
    && ss != [] && Init(ss[0])
    && forall i | 0 <= i < |ss| - 1 :: Step(key, ss[i], ss[i + 1])
  }

  // ----------------------------------------------------- condition persistence

  predicate IsMultiple(c: Condition) {
    !c.status && c.reason == GuardrailsFailed && c.message == MultipleGuards
  }

  /** The stored conditions tell the truth about multiple guards. */
  predicate Consistent(cs: seq<Condition>) {
    var ready, unsupported := Find(cs, ReadyKind), Find(cs, GuardrailsUnsupported);
    && (ready.Some? && ready.value.status ==> unsupported.None?)
    && (ready.Some? && IsMultiple(ready.value) ==>
          unsupported.Some? &&
          SameCondition(unsupported.value, UnsupportedCondition(ready.value.observedGeneration, 0)))
  }

  /** How the in-memory conditions of a reconcile about to report relate to the
      stored ones it read. */
  ghost predicate Mutated(stored: seq<Condition>, mem: Mem, o: Outcome) {
    match o
    case Success => mem.conditions == RemoveCondition(stored, GuardrailsUnsupported)
    case Failure(reason, message) =>
      if reason == GuardrailsFailed && message == MultipleGuards then
        exists now :: mem.conditions == SetCondition(stored, UnsupportedCondition(mem.generation, now))
      else mem.conditions == stored
  }

  /** The reconcile in flight works on the ToolGateway that exists. */
  predicate SameGateway(s: State) {
    s.pc != Idle ==> s.spec.Some? && s.pc.mem.uid == s.uid
  }

  ghost predicate Inv(s: State) {
    && Consistent(s.conditions)
    && (s.pc != Idle ==>
          && s.pc.mem.uid <= s.uid && Consistent(s.pc.mem.read)
          && (SameGateway(s) ==> s.conditions == s.pc.mem.read)
          && if s.pc.Report? then Mutated(s.pc.mem.read, s.pc.mem, s.pc.outcome)
             else s.pc.mem.conditions == s.pc.mem.read)
  }

  predicate HasCondition(cs: seq<Condition>, c: Condition) {
    var found := Find(cs, c.kind);
    found.Some? && SameCondition(found.value, c)
  }

  /** Whether the patch carries the earlier mutation, told from the stored conditions and
      the outcome alone. */
  predicate MutationCarried(stored: seq<Condition>, generation: nat, o: Outcome) {
    match o
    case Success =>
      Find(stored, GuardrailsUnsupported).None? || !HasCondition(stored, ReadyConditionFor(o, generation, 0))
    case Failure(reason, message) =>
      reason == GuardrailsFailed && message == MultipleGuards ==>
        || HasCondition(stored, UnsupportedCondition(generation, 0))
        || !HasCondition(stored, ReadyConditionFor(o, generation, 0))
  }

  lemma SuccessPersists(stored: seq<Condition>, mem: Mem, now: int)
    requires mem.conditions == RemoveCondition(stored, GuardrailsUnsupported)
    ensures Final(mem, Success, now) == mem.conditions <==>
            HasCondition(stored, ReadyConditionFor(Success, mem.generation, 0))
    ensures stored == mem.conditions <==> Find(stored, GuardrailsUnsupported).None?
  {
    SetIdle(mem.conditions, ReadyConditionFor(Success, mem.generation, now));
    FindAfterRemove(stored, GuardrailsUnsupported, ReadyKind);
    FindAfterRemove(stored, GuardrailsUnsupported, GuardrailsUnsupported);
    if Find(stored, GuardrailsUnsupported).None? { RemoveAbsent(stored, GuardrailsUnsupported); }
  }

  lemma MultiplePersists(stored: seq<Condition>, mem: Mem, t: int, now: int)
    requires mem.conditions == SetCondition(stored, UnsupportedCondition(mem.generation, t))
    ensures var o := Failure(GuardrailsFailed, MultipleGuards);
            Final(mem, o, now) == mem.conditions <==> HasCondition(stored, ReadyConditionFor(o, mem.generation, 0))
    ensures stored == mem.conditions <==> HasCondition(stored, UnsupportedCondition(mem.generation, 0))
  {
    var o := Failure(GuardrailsFailed, MultipleGuards);
    var unsupported := UnsupportedCondition(mem.generation, t);
    SetIdle(mem.conditions, ReadyConditionFor(o, mem.generation, now));
    SetIdle(stored, unsupported);
    FindAfterSet(stored, unsupported, ReadyKind);
  }

  /** Exactly when a status patch stores what is in memory.  After a success: if there was
      no GuardrailsUnsupported to remove, or the Ready condition to be set is not there
      yet.  After the multiple-guards error: if GuardrailsUnsupported was there already,
      or that Ready condition is not.  After any other failure: always. */
  lemma PatchPersistsIff(stored: seq<Condition>, mem: Mem, o: Outcome, now: int)
    requires Mutated(stored, mem, o)
    ensures Patched(mem.conditions, Final(mem, o, now), stored) == Final(mem, o, now)
            <==> MutationCarried(stored, mem.generation, o)
  {
    match o {
      case Success => SuccessPersists(stored, mem, now);
      case Failure(reason, message) =>
        if reason == GuardrailsFailed && message == MultipleGuards {
          var t :| mem.conditions == SetCondition(stored, UnsupportedCondition(mem.generation, t));
          MultiplePersists(stored, mem, t, now);
        }
    }
  }

  lemma FinalConsistent(stored: seq<Condition>, mem: Mem, o: Outcome, now: int)
    requires Consistent(stored) && Mutated(stored, mem, o)
    ensures Consistent(Final(mem, o, now))
  {
    var ready := ReadyConditionFor(o, mem.generation, now);
    FindAfterSet(mem.conditions, ready, GuardrailsUnsupported);
    FindAfterSet(mem.conditions, ready, ReadyKind);
    match o {
      case Success => FindAfterRemove(stored, GuardrailsUnsupported, GuardrailsUnsupported);
      case Failure(reason, message) =>
        if reason == GuardrailsFailed && message == MultipleGuards {
          var t :| mem.conditions == SetCondition(stored, UnsupportedCondition(mem.generation, t));
          FindAfterSet(stored, UnsupportedCondition(mem.generation, t), GuardrailsUnsupported);
        }
    }
  }

  /** From a consistent store the earlier mutation is never lost. */
  lemma PatchPersists(stored: seq<Condition>, mem: Mem, o: Outcome, now: int)
    requires Consistent(stored) && Mutated(stored, mem, o)
    ensures Patched(mem.conditions, Final(mem, o, now), stored) == Final(mem, o, now)
    ensures Consistent(Final(mem, o, now))
  {
    PatchPersistsIff(stored, mem, o, now);
    FinalConsistent(stored, mem, o, now);
  }

  lemma AdvanceKeeps(key: Key, s: State, r: Reply, x: Input)
    requires Inv(s) && CanAdvance(s)
    ensures Inv(Advance(key, s, r, x))
  {
    if s.pc.Guardrails? {
      GuardrailsKeeps(key, s, r, x);
    } else if s.pc.Report? {
      FinalConsistent(s.pc.mem.read, s.pc.mem, s.pc.outcome, x.now);
    } else if s.pc.WritePolicy? {
      WriteKeeps(key, s, r, x);
    }
  }

  lemma WriteKeeps(key: Key, s: State, r: Reply, x: Input)
    requires Inv(s) && s.pc.WritePolicy?
    ensures Inv(WriteStep(key, s, r, x))
  {
    WriteFrame(key, s, r, x);
  }

  /** A policy write changes the policy, and ends in success or an error. */
  lemma WriteFrame(key: Key, s: State, r: Reply, x: Input)
    requires s.pc.WritePolicy?
    ensures var s', mem := WriteStep(key, s, r, x), s.pc.mem;
            && s' == s.(policy := s'.policy, queued := s'.queued, pc := s'.pc)
            && (s'.pc == GuardrailsDone(mem) || s'.pc == Fail(mem, GuardrailsFailed, WriteFailed(x.detail)))
  {
  }

  lemma GuardrailsKeeps(key: Key, s: State, r: Reply, x: Input)
    requires Inv(s) && s.pc.Guardrails?
    ensures Inv(GuardrailsStep(key, s, r, x))
  {
    var mem := s.pc.mem;
    if |mem.guardrails| > 1 {
      assert SetCondition(mem.conditions, UnsupportedCondition(mem.generation, x.now))
          == SetCondition(mem.read, UnsupportedCondition(mem.generation, x.now));
    }
  }

  lemma {:induction false} RunKeeps(key: Key, ss: seq<State>, n: nat)
    requires Run(key, ss) && n < |ss|
    ensures Inv(ss[n])
    decreases n
  {
    if n > 0 {
      RunKeeps(key, ss, n - 1);
      var s, s' := ss[n - 1], ss[n];
      assert Step(key, ss[n - 1], ss[n - 1 + 1]);
      if CanAdvance(s) && exists r, x :: s' == Advance(key, s, r, x) {
        var r, x :| s' == Advance(key, s, r, x);
        AdvanceKeeps(key, s, r, x);
      }
    }
  }

  /** In every reachable store: Ready=True excludes GuardrailsUnsupported, and the
      multiple-guards error comes with it; and every status patch that takes effect on
      the ToolGateway that was read leaves the stored conditions equal to the in-memory
      ones, although its base is taken after they were mutated. */
  lemma ConditionsPersist(key: Key, ss: seq<State>, n: nat, r: Reply, x: Input)
    requires Run(key, ss) && n < |ss|
    ensures Consistent(ss[n].conditions)
    ensures ss[n].pc.Report? && SameGateway(ss[n]) && r != Refused ==>
              Advance(key, ss[n], r, x).conditions == Final(ss[n].pc.mem, ss[n].pc.outcome, x.now)
  {
    RunKeeps(key, ss, n);
    if ss[n].pc.Report? && SameGateway(ss[n]) && r != Refused {
      PatchPersists(ss[n].conditions, ss[n].pc.mem, ss[n].pc.outcome, x.now);
    }
  }

  /** The invariant is needed: from a store it excludes, a successful reconcile
      without guards leaves GuardrailsUnsupported in place, as long as Ready does not change. */
  lemma LostWithoutInvariant(g: nat, now: int)
    ensures var ready := ReadyConditionFor(Success, g, 0);
            var stored := [ready, UnsupportedCondition(g, 0)];
            var mem := Mem(0, [], g, stored, RemoveCondition(stored, GuardrailsUnsupported));
            && Mutated(stored, mem, Success)
            && Patched(mem.conditions, Final(mem, Success, now), stored) == stored
            && Find(stored, GuardrailsUnsupported).Some?
  {
    var ready := ReadyConditionFor(Success, g, 0);
    var stored := [ready, UnsupportedCondition(g, 0)];
    assert stored[1..] == [UnsupportedCondition(g, 0)];
    assert stored[1..][1..] == [];
    var gone := GuardrailsUnsupported;
    assert RemoveCondition(stored, gone) == [ready] + RemoveCondition(stored[1..], gone);
    assert RemoveCondition(stored[1..], gone) == RemoveCondition(stored[1..][1..], gone);
    assert RemoveCondition(stored, gone) == [ready];
    assert [ready][1..] == [];
  }

  /** The next generation heals any store: a success of a generation that Ready does not show
      yet removes GuardrailsUnsupported. */
  lemma NextGenerationHeals(stored: seq<Condition>, mem: Mem, now: int)
    requires mem.conditions == RemoveCondition(stored, GuardrailsUnsupported)
    requires Find(stored, ReadyKind).Some? ==> Find(stored, ReadyKind).value.observedGeneration != mem.generation
    ensures Patched(mem.conditions, Final(mem, Success, now), stored) == Final(mem, Success, now)
    ensures Find(Final(mem, Success, now), GuardrailsUnsupported).None?
  {
    PatchPersistsIff(stored, mem, Success, now);
    FindAfterSet(mem.conditions, ReadyConditionFor(Success, mem.generation, now), GuardrailsUnsupported);
    FindAfterRemove(stored, GuardrailsUnsupported, GuardrailsUnsupported);
  }
}
