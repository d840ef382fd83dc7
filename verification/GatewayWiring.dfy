/** The guardrail policy of a ToolGateway over whole runs of its reconciler, with
    the spec and the guards edited between any two calls and nobody else writing the
    policy. */
module GatewayWiring {
  import opened Wrappers
  import opened Objects
  import opened Api
  import opened GatewayConditions

  ghost predicate OwnStep(key: Key, s: State, s': State) {
    || (CanAdvance(s) && exists r, x :: s' == Advance(key, s, r, x))
    || (exists e: Edit :: !e.EditPolicy? && s' == Edited(key, s, e))
  }

  ghost predicate OwnRun(key: Key, ss: seq<State>) {
    && ss != [] && ss[0].pc == Idle
    && forall i | 0 <= i < |ss| - 1 :: OwnStep(key, ss[i], ss[i + 1])
  }

  // ---------------------------------------------------------- after a success

  /** What a reconcile that read these guardrails must have left. */
  predicate Wired(key: Key, guardrails: seq<Ref>, policy: Option<Policy>) {
    if guardrails == [] then policy == None
    else
      && |guardrails| == 1 && policy.Some? && policy.value.owner == Mine
      && Points(policy.value.content, key.name, Resolve(guardrails[0], key.ns))
  }

  predicate OnTrack(key: Key, s: State) {
    match s.pc
    case ReadPolicy(mem, guard) => |mem.guardrails| == 1 && guard == Resolve(mem.guardrails[0], key.ns)
    case WritePolicy(mem, guard, read) =>
      |mem.guardrails| == 1 && guard == Resolve(mem.guardrails[0], key.ns) && read == s.policy
    case Report(mem, o) => o == Success ==> Wired(key, mem.guardrails, s.policy)
    case _ => true
  }

  lemma AdvanceOnTrack(key: Key, s: State, r: Reply, x: Input)
    requires OnTrack(key, s) && CanAdvance(s)
    ensures OnTrack(key, Advance(key, s, r, x))
  {
  }

  lemma {:induction false} SuccessIsWired(key: Key, ss: seq<State>, n: nat)
    requires OwnRun(key, ss) && n < |ss|
    ensures OnTrack(key, ss[n])
    decreases n
  {
    if n > 0 {
      SuccessIsWired(key, ss, n - 1);
      var s, s' := ss[n - 1], ss[n];
      assert OwnStep(key, ss[n - 1], ss[n - 1 + 1]);
      if CanAdvance(s) && exists r, x :: s' == Advance(key, s, r, x) {
        var r, x :| s' == Advance(key, s, r, x);
        AdvanceOnTrack(key, s, r, x);
      }
    }
  }

  /** From any earlier store: when a reconcile is about to report success, there is no
      guardrail policy if it read no guards, and exactly the policy of the one guard
      it read otherwise; more than one guard never succeeds. */
  lemma SuccessLeavesPolicy(key: Key, ss: seq<State>, n: nat)
    requires OwnRun(key, ss) && n < |ss|
    requires ss[n].pc.Report? && ss[n].pc.outcome == Success
    ensures Wired(key, ss[n].pc.mem.guardrails, ss[n].policy)
  {
    SuccessIsWired(key, ss, n);
  }

  // --------------------------------------------------------------- provenance

  predicate WasReady(s: State, guard: Key) {
    s.pc.Guardrails? && guard in s.guards && s.guards[guard].Ready?
  }

  predicate WorksOn(s: State, guard: Key) {
    (s.pc.ReadPolicy? || s.pc.WritePolicy?) && s.pc.guard == guard
  }

  /** The reconcile in flight in state m read `guard` as Ready: it did so in state j,
      and has been at work on that guard's policy ever since. */
  ghost predicate ReadReady(ss: seq<State>, m: nat, guard: Key)
    requires m < |ss|
  {
    exists j :: 0 <= j < m && WasReady(ss[j], guard) && forall i | j < i <= m :: WorksOn(ss[i], guard)
  }

  /** The policy was written, in some state up to n, by a reconcile that had read the
      guard it points at as Ready. */
  ghost predicate Justified(key: Key, ss: seq<State>, n: nat, p: PolicySpec)
    requires n < |ss|
  {
    exists m: nat, guard: Key ::
      m <= n && ReadReady(ss, m, guard) && ss[m].pc.WritePolicy? && Points(p, key.name, guard)
  }

  ghost predicate Traced(key: Key, ss: seq<State>, n: nat)
    requires n < |ss|
  {
    var s := ss[n];
    && (s.policy.Some? ==> s.policy.value.owner == Mine && Justified(key, ss, n, s.policy.value.content))
    && (s.pc.ReadPolicy? ==> ReadReady(ss, n, s.pc.guard))
    && (s.pc.WritePolicy? ==> ReadReady(ss, n, s.pc.guard) && s.pc.read == s.policy)
  }

  lemma JustifiedStays(key: Key, ss: seq<State>, n: nat, p: PolicySpec)
    requires n + 1 < |ss| && Justified(key, ss, n, p)
    ensures Justified(key, ss, n + 1, p)
  {
    var m: nat, guard: Key :|
      m <= n && ReadReady(ss, m, guard) && ss[m].pc.WritePolicy? && Points(p, key.name, guard);
  }

  /** Still at work on the same guard in the next state. */
  lemma ReadReadyStays(ss: seq<State>, n: nat, guard: Key)
    requires n + 1 < |ss| && ReadReady(ss, n, guard) && WorksOn(ss[n + 1], guard)
    ensures ReadReady(ss, n + 1, guard)
  {
    var j :| 0 <= j < n && WasReady(ss[j], guard) && forall i | j < i <= n :: WorksOn(ss[i], guard);
    assert forall i | j < i <= n + 1 :: WorksOn(ss[i], guard);
  }

  lemma AdvanceTraced(key: Key, ss: seq<State>, n: nat, r: Reply, x: Input)
    requires n + 1 < |ss| && Traced(key, ss, n) && CanAdvance(ss[n]) && ss[n + 1] == Advance(key, ss[n], r, x)
    ensures Traced(key, ss, n + 1)
  {
    if ss[n].policy.Some? { JustifiedStays(key, ss, n, ss[n].policy.value.content); }
    if ss[n].pc.WritePolicy? {
      WriteTraced(key, ss, n, r, x);
    } else {
      OtherTraced(key, ss, n, r, x);
    }
  }

  lemma WriteTraced(key: Key, ss: seq<State>, n: nat, r: Reply, x: Input)
    requires n + 1 < |ss| && Traced(key, ss, n) && ss[n].pc.WritePolicy?
    requires ss[n + 1] == WriteStep(key, ss[n], r, x)
    requires ss[n].policy.Some? ==> Justified(key, ss, n + 1, ss[n].policy.value.content)
    ensures Traced(key, ss, n + 1)
  {
    var guard := ss[n].pc.guard;
    WriteKeepsOwner(key, ss[n], r, x);
    assert Justified(key, ss, n, PolicyFor(key.name, guard));
    JustifiedStays(key, ss, n, PolicyFor(key.name, guard));
  }

  lemma OtherTraced(key: Key, ss: seq<State>, n: nat, r: Reply, x: Input)
    requires n + 1 < |ss| && Traced(key, ss, n) && !ss[n].pc.WritePolicy?
    requires CanAdvance(ss[n]) && ss[n + 1] == Advance(key, ss[n], r, x)
    requires ss[n].policy.Some? ==> Justified(key, ss, n + 1, ss[n].policy.value.content)
    ensures Traced(key, ss, n + 1)
  {
    var s, s' := ss[n], ss[n + 1];
    if s'.pc.ReadPolicy? {
      assert WasReady(ss[n], s'.pc.guard) && WorksOn(ss[n + 1], s'.pc.guard);
    } else if s'.pc.WritePolicy? {
      ReadReadyStays(ss, n, s.pc.guard);
    }
  }

  lemma WriteKeepsOwner(key: Key, s: State, r: Reply, x: Input)
    requires s.pc.WritePolicy? && s.pc.read == s.policy && (s.policy.Some? ==> s.policy.value.owner == Mine)
    ensures var s' := WriteStep(key, s, r, x);
            && (s'.policy == s.policy || s'.policy == Some(Owned(Mine, PolicyFor(key.name, s.pc.guard))))
            && !s'.pc.ReadPolicy? && !s'.pc.WritePolicy?
  {
  }

  lemma EditTraced(key: Key, ss: seq<State>, n: nat, e: Edit)
    requires n + 1 < |ss| && Traced(key, ss, n) && !e.EditPolicy? && ss[n + 1] == Edited(key, ss[n], e)
    ensures Traced(key, ss, n + 1)
  {
    var s, s' := ss[n], ss[n + 1];
    assert s'.policy == s.policy && s'.pc == s.pc;
    if s.policy.Some? { JustifiedStays(key, ss, n, s.policy.value.content); }
    if s.pc.ReadPolicy? || s.pc.WritePolicy? { ReadReadyStays(ss, n, s.pc.guard); }
  }

  lemma StepTraced(key: Key, ss: seq<State>, n: nat)
    requires n + 1 < |ss| && Traced(key, ss, n) && OwnStep(key, ss[n], ss[n + 1])
    ensures Traced(key, ss, n + 1)
  {
    var s, s' := ss[n], ss[n + 1];
    if CanAdvance(s) && exists r, x :: s' == Advance(key, s, r, x) {
      var r, x :| s' == Advance(key, s, r, x);
      AdvanceTraced(key, ss, n, r, x);
    } else {
      var e: Edit :| !e.EditPolicy? && s' == Edited(key, s, e);
      EditTraced(key, ss, n, e);
    }
  }

  lemma {:induction false} RunTraced(key: Key, ss: seq<State>, n: nat)
    requires OwnRun(key, ss) && ss[0].policy == None && n < |ss|
    ensures Traced(key, ss, n)
    decreases n
  {
    if n > 0 {
      RunTraced(key, ss, n - 1);
      assert OwnStep(key, ss[n - 1], ss[n - 1 + 1]);
      StepTraced(key, ss, n - 1);
    }
  }

  /** Guard wiring safety: at every step of every run, the operator's guardrail policy
      points at the adapter of a Guard that the reconcile which wrote it had read as
      Ready=True. */
  lemma PolicyPointsAtReadyGuard(key: Key, ss: seq<State>, n: nat)
    requires OwnRun(key, ss) && ss[0].policy == None && n < |ss| && ss[n].policy.Some?
    ensures Justified(key, ss, n, ss[n].policy.value.content)
  {
    RunTraced(key, ss, n);
  }

  // ------------------------------------------------- policies of other owners

  /** The patch of a policy read earlier would change this one. */
  predicate PatchChanges(key: Key, s: State)
    requires s.pc.WritePolicy? && s.policy.Some?
  {
    var want := Owned(Mine, PolicyFor(key.name, s.pc.guard));
    && s.pc.read.Some? && s.pc.read.value.owner != Other && s.pc.read.value != want
    && MergePatch(s.pc.read.value, want, s.policy.value) != s.policy.value
  }

  /** Exactly which calls change a policy that somebody else controls: the deletion by name
      of a ToolGateway without guards, which does not look at the owner; and a patch, if the
      policy was not somebody else's yet when it was read. */
  lemma ForeignPolicyIff(key: Key, s: State, r: Reply, x: Input)
    requires CanAdvance(s) && s.policy.Some? && s.policy.value.owner == Other
    ensures Advance(key, s, r, x).policy != s.policy <==>
            || (s.pc.Guardrails? && |s.pc.mem.guardrails| == 0 && r != Refused)
            || (s.pc.WritePolicy? && PatchChanges(key, s) && r != Refused)
  {
    if s.pc.WritePolicy? { ForeignWriteIff(key, s, r, x); }
  }

  lemma ForeignWriteIff(key: Key, s: State, r: Reply, x: Input)
    requires s.pc.WritePolicy? && s.policy.Some? && s.policy.value.owner == Other
    ensures WriteStep(key, s, r, x).policy != s.policy <==> PatchChanges(key, s) && r != Refused
  {
  }

  /** So a ToolGateway without guards removes whatever policy bears the name, in one
      successful call. */
  lemma DeletesForeignPolicy(key: Key, s: State, r: Reply, x: Input)
    requires s.pc.Guardrails? && |s.pc.mem.guardrails| == 0 && r != Refused
    ensures Advance(key, s, r, x).policy == None
  {
  }
}
