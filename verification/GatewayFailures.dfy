/** Which failure of a ToolGateway reconcile is shown how: for every phase that can fail,
    the Ready condition that is stored when the status patch takes effect. */
module GatewayFailures {
  import opened Objects
  import opened Api
  import opened Replay
  import opened GatewayMessages
  import opened GatewayConditions

  /** Ready=False is shown for this generation, with this reason and message. */
  predicate ShownFailed(cs: seq<Condition>, reason: Reason, message: Message, generation: nat) {
    var ready := Find(cs, ReadyKind);
    && ready.Some? && !ready.value.status && ready.value.reason == reason && ready.value.message == message
    && ready.value.observedGeneration == generation
  }

  lemma ReportShows(key: Key, s: State, r: Reply, x: Input)
    requires Inv(s) && s.pc.Report? && SameGateway(s) && s.pc.outcome.Failure? && r != Refused
    ensures ShownFailed(Advance(key, s, r, x).conditions, s.pc.outcome.reason, s.pc.outcome.message,
                        s.pc.mem.generation)
    ensures Advance(key, s, r, x).pc == Idle && Advance(key, s, r, x).queued
  {
    var mem, o := s.pc.mem, s.pc.outcome;
    PatchPersists(s.conditions, mem, o, x.now);
    FindAfterSet(mem.conditions, ReadyConditionFor(o, mem.generation, x.now), ReadyKind);
  }

  /** A ToolGateway of ours waits to be reconciled. */
  predicate Waiting(s: State) {
    Consistent(s.conditions) && s.pc == Idle && s.queued && s.spec.Some? && s.spec.value.owned
  }

  /** The reconcile of this ToolGateway stands before reading or writing anything else. */
  ghost predicate Begun(s: State, t: State) {
    && Inv(t) && t.pc != Idle && SameGateway(t) && t.spec == s.spec && t.guards == s.guards
    && t.pc.mem.guardrails == s.spec.value.guardrails && t.pc.mem.generation == s.generation
  }

  lemma StartBegins(key: Key, s: State, x: Input)
    requires Waiting(s)
    ensures var t := Advance(key, s, Done, x); Begun(s, t) && t.pc.Parameters?
  {
  }

  /** The parameters object cannot be written. */
  lemma ParametersFailureShown(key: Key, s: State, start: Input, x: Input, status: Input, r: Reply, patched: Reply)
    requires Waiting(s) && r != Done && patched != Refused
    ensures var t := Play(Reconciling(key), s, [Call(Done, start)] + [Call(r, x), Call(patched, status)]);
            ShownFailed(t.conditions, ParametersFailed, Detail(x.detail), s.generation) && t.queued
  {
    var m := Reconciling(key);
    var s1 := Advance(key, s, Done, start);
    StartBegins(key, s, start);
    PlayAppend(m, s, [Call(Done, start)], [Call(r, x), Call(patched, status)]);
    PlayOne(m, s, Call(Done, start));
    AdvanceKeeps(key, s1, r, x);
    PlayTwo(m, s1, Call(r, x), Call(patched, status));
    ReportShows(key, Advance(key, s1, r, x), patched, status);
  }

  /** The Gateway cannot be written. */
  lemma GatewayFailureShown(key: Key, s: State, start: Input, first: Input, x: Input, status: Input,
                            r: Reply, patched: Reply)
    requires Waiting(s) && r != Done && patched != Refused
    ensures var t := Play(Reconciling(key), s,
                          [Call(Done, start), Call(Done, first)] + [Call(r, x), Call(patched, status)]);
            ShownFailed(t.conditions, GatewayFailed, Detail(x.detail), s.generation) && t.queued
  {
    var m := Reconciling(key);
    var s1 := Advance(key, s, Done, start);
    var s2 := Advance(key, s1, Done, first);
    StartBegins(key, s, start);
    AdvanceKeeps(key, s1, Done, first);
    PlayAppend(m, s, [Call(Done, start), Call(Done, first)], [Call(r, x), Call(patched, status)]);
    PlayTwo(m, s, Call(Done, start), Call(Done, first));
    AdvanceKeeps(key, s2, r, x);
    PlayTwo(m, s2, Call(r, x), Call(patched, status));
    ReportShows(key, Advance(key, s2, r, x), patched, status);
  }

  /** The calls up to the guardrails succeed. */
  function UpToGuardrails(start: Input, first: Input, second: Input): seq<Call> {
    [Call(Done, start), Call(Done, first)] + [Call(Done, second)]
  }

  lemma ReachesGuardrails(key: Key, s: State, start: Input, first: Input, second: Input)
    requires Waiting(s)
    ensures var t := Play(Reconciling(key), s, UpToGuardrails(start, first, second)); Begun(s, t) && t.pc.Guardrails?
  {
    var m := Reconciling(key);
    var s1 := Advance(key, s, Done, start);
    var s2 := Advance(key, s1, Done, first);
    StartBegins(key, s, start);
    AdvanceKeeps(key, s1, Done, first);
    AdvanceKeeps(key, s2, Done, second);
    PlayAppend(m, s, [Call(Done, start), Call(Done, first)], [Call(Done, second)]);
    PlayTwo(m, s, Call(Done, start), Call(Done, first));
    PlayOne(m, s2, Call(Done, second));
  }

  /** What is shown when the first call of the guardrails phase ends the reconcile. */
  ghost predicate GuardrailsFailure(key: Key, s: State, r: Reply, x: Input, reason: Reason, message: Message)
    requires s.spec.Some?
  {
    var refs := s.spec.value.guardrails;
    if |refs| == 0 then r != Done && reason == GuardrailsFailed && message == DeleteFailed(x.detail)
    else if |refs| > 1 then reason == GuardrailsFailed && message == MultipleGuards
    else if r != Done then reason == GuardrailsFailed && message == GetFailed(x.detail)
    else
      exists guard ::
        && PointsTo(refs[0], key.ns, guard)
        && ((guard !in s.guards && reason == GuardNotFound && message == Detail(x.detail))
            || (guard in s.guards && !s.guards[guard].Ready? && reason == GuardNotReady && message == Detail(x.detail)))
  }

  /** The guardrails phase fails: no guards, and the policy cannot be deleted; several
      guards; or one, which cannot be read, does not exist, or is not Ready. */
  lemma GuardrailsFailureShown(key: Key, s: State, start: Input, first: Input, second: Input, x: Input, status: Input,
                               r: Reply, patched: Reply, reason: Reason, message: Message)
    requires Waiting(s) && GuardrailsFailure(key, s, r, x, reason, message) && patched != Refused
    ensures var t := Play(Reconciling(key), s,
                          UpToGuardrails(start, first, second) + [Call(r, x), Call(patched, status)]);
            ShownFailed(t.conditions, reason, message, s.generation) && t.queued
  {
    var m := Reconciling(key);
    var s3 := Play(m, s, UpToGuardrails(start, first, second));
    ReachesGuardrails(key, s, start, first, second);
    PlayAppend(m, s, UpToGuardrails(start, first, second), [Call(r, x), Call(patched, status)]);
    var s4 := Advance(key, s3, r, x);
    AdvanceKeeps(key, s3, r, x);
    GuardrailsFail(key, s, s3, r, x, reason, message);
    PlayTwo(m, s3, Call(r, x), Call(patched, status));
    ReportShows(key, s4, patched, status);
  }

  lemma GuardrailsFail(key: Key, s: State, t: State, r: Reply, x: Input, reason: Reason, message: Message)
    requires Waiting(s) && GuardrailsFailure(key, s, r, x, reason, message) && Begun(s, t) && t.pc.Guardrails?
    ensures var t' := Advance(key, t, r, x);
            && t'.pc.Report? && t'.pc.outcome == Failure(reason, message)
            && SameGateway(t') && t'.pc.mem.generation == s.generation
  {
    var refs := s.spec.value.guardrails;
    if |refs| == 1 && r == Done {
      var guard :| PointsTo(refs[0], key.ns, guard) && (guard !in s.guards || !s.guards[guard].Ready?);
      assert guard == Resolve(refs[0], key.ns);
    }
  }

  /** And when the policy cannot be read or written: the same reason, with its own message. */
  lemma PolicyFailureReason(key: Key, s: State, r: Reply, x: Input)
    requires s.pc.ReadPolicy? || s.pc.WritePolicy?
    ensures var t := Advance(key, s, r, x);
            t.pc.Report? && t.pc.outcome.Failure? ==>
              t.pc.outcome.reason == GuardrailsFailed && t.pc.outcome.message == WriteFailed(x.detail)
    ensures s.pc.ReadPolicy? && r != Done ==>
              Advance(key, s, r, x).pc.Report? && Advance(key, s, r, x).pc.outcome.Failure?
  {
    if s.pc.WritePolicy? { WriteFrame(key, s, r, x); }
  }
}
