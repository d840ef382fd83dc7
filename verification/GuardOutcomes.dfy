/** What whole runs of the Guard loop leave to be seen: when the status of a Guard that
    cannot be deployed is right, and when its Deployment is rolled. */
module GuardOutcomes {
  import opened Wrappers
  import opened Objects
  import opened Api
  import opened GuardConfig
  import opened GuardLoop
  import GuardWatch

  // --------------------------------------------------------- swallowed status

  /** The last status patch of the run: in state m, with reply r, and no reconcile since. */
  ghost predicate LastPatch(p: Params, ss: seq<State>, m: nat, r: Reply) {
    && m + 1 < |ss| && ss[m].pc.Report? && ss[m + 1] == Advance(p, ss[m], r)
    && forall i | m < i < |ss| :: ss[i].pc == Idle
  }

  /** Neither queued nor in flight, and there is a Guard. */
  predicate Resting(s: State) {
    s.pc == Idle && !s.queued && s.guard.Some?
  }

  /** A Guard that is waiting, or does not exist, in an idle state is not resting later
      without a reconcile in between. */
  lemma {:induction false} WaitingStays(p: Params, ss: seq<State>, i: nat)
    requires Run(p, ss) && i < |ss| && forall j | i <= j < |ss| :: ss[j].pc == Idle
    requires ss[i].queued || ss[i].guard.None?
    ensures !Resting(ss[|ss| - 1])
    decreases |ss| - i
  {
    if i + 1 < |ss| {
      assert Step(p, ss[i], ss[i + 1]);
      WaitingStays(p, ss, i + 1);
    }
  }

  lemma {:induction false} LastBusy(p: Params, ss: seq<State>, n: nat) returns (m: nat)
    requires Run(p, ss) && n < |ss| && Resting(ss[|ss| - 1]) && forall j | n <= j < |ss| :: ss[j].pc == Idle
    ensures m + 1 < |ss| && ss[m].pc != Idle && forall i | m < i < |ss| :: ss[i].pc == Idle
    decreases n
  {
    if n == 0 {
      WaitingStays(p, ss, 0);
    } else if ss[n - 1].pc == Idle {
      m := LastBusy(p, ss, n - 1);
    } else {
      m := n - 1;
    }
  }

  /** Only the status patch ends a reconcile. */
  lemma WriteGoesOn(p: Params, s: State, r: Reply)
    requires s.pc.Have? && s.pc.plan.Deploy?
    ensures Write(p, s, r).pc != Idle
  {
  }

  lemma OnlyReportEnds(p: Params, s: State, r: Reply)
    requires CanAdvance(s) && s.pc != Idle && Advance(p, s, r).pc == Idle
    ensures s.pc.Report?
  {
    if s.pc.Have? { WriteGoesOn(p, s, r); }
  }

  /** A resting Guard has been reconciled. */
  lemma LastPatchExists(p: Params, ss: seq<State>)
    requires Run(p, ss) && Resting(ss[|ss| - 1])
    ensures exists m, r :: LastPatch(p, ss, m, r)
  {
    var m := LastBusy(p, ss, |ss| - 1);
    assert Step(p, ss[m], ss[m + 1]);
    assert ss[m + 1].pc == Idle;
    assert forall e :: Edited(p, ss[m], e).pc == ss[m].pc;
    var r :| ss[m + 1] == Advance(p, ss[m], r);
    OnlyReportEnds(p, ss[m], r);
    assert LastPatch(p, ss, m, r);
  }

  /** While a Guard rests nothing that matters to it changes. */
  lemma {:induction false} RestingStays(p: Params, ss: seq<State>, i: nat)
    requires Run(p, ss) && i < |ss| && forall j | i <= j < |ss| :: ss[j].pc == Idle
    requires Resting(ss[|ss| - 1])
    ensures Resting(ss[i])
    ensures ss[i].status == ss[|ss| - 1].status && ss[i].generation == ss[|ss| - 1].generation
    ensures ss[i].guard == ss[|ss| - 1].guard && CurrentPlan(p, ss[i]) == CurrentPlan(p, ss[|ss| - 1])
    decreases |ss| - i
  {
    if !Resting(ss[i]) { WaitingStays(p, ss, i); }
    if i + 1 < |ss| {
      assert Step(p, ss[i], ss[i + 1]);
      RestingStays(p, ss, i + 1);
      RestingStep(p, ss[i], ss[i + 1]);
    }
  }

  lemma RestingStep(p: Params, s: State, s': State)
    requires Step(p, s, s') && Resting(s) && Resting(s')
    ensures s'.status == s.status && s'.generation == s.generation && s'.guard == s.guard
    ensures CurrentPlan(p, s') == CurrentPlan(p, s)
  {
    var e :| s' == Edited(p, s, e);
    if e.EditProvider? {
      var used := GuardWatch.ProviderKey(p.key, s.guard.value);
      assert Get(s'.providers, used) == Get(s.providers, used);
    }
  }

  /** The status the present inputs call for. */
  predicate StatusRight(p: Params, s: State, status: Status)
    requires s.guard.Some?
  {
    status == match CurrentPlan(p, s)
              case Deploy(_, _) => Shown(IsReady, s.generation)
              case Stop(r) => Shown(IsNotReady(r), s.generation)
  }

  /** The status patch that ends a reconcile after which the Guard rests. */
  lemma LastPatchSays(p: Params, s: State, r: Reply)
    requires Inv(p, s) && s.pc.Report? && Resting(Conclude(s, r))
    ensures var t := Conclude(s, r);
            && (StatusRight(p, t, t.status) <==> r != Refused || StatusRight(p, t, s.status))
            && (!StatusRight(p, t, t.status) ==> CurrentPlan(p, t).Stop?)
  {
    assert !s.queued && s.guard.Some? && CurrentPlan(p, Conclude(s, r)) == CurrentPlan(p, s);
  }

  /** In every run, for every Guard that is neither queued nor in flight: its status is
      the outcome its present inputs call for if and only if its last status patch was not
      refused or the status was right before.  So it can only be wrong where a patch was
      refused, and then for an outcome that is not retried. */
  lemma StatusRightIff(p: Params, ss: seq<State>, m: nat, r: Reply)
    requires Run(p, ss) && Resting(ss[|ss| - 1]) && LastPatch(p, ss, m, r)
    ensures var s := ss[|ss| - 1];
            && (StatusRight(p, s, s.status) <==> r != Refused || StatusRight(p, s, ss[m].status))
            && (!StatusRight(p, s, s.status) ==> CurrentPlan(p, s).Stop?)
  {
    RestingStays(p, ss, m + 1);
    PrefixRun(p, ss, m);
    RunKeeps(p, ss[..m + 1]);
    assert ss[..m + 1][|ss[..m + 1]| - 1] == ss[m] && ss[m + 1] == Conclude(ss[m], r);
    LastPatchSays(p, ss[m], r);
  }

  lemma PrefixRun(p: Params, ss: seq<State>, n: nat)
    requires Run(p, ss) && n < |ss|
    ensures Run(p, ss[..n + 1])
  {
    var front := ss[..n + 1];
    forall i | 0 <= i < |front| - 1 ensures Step(p, front[i], front[i + 1]) {
      assert Step(p, ss[i], ss[i + 1]);
    }
  }

  /** The status can stay wrong for good: without an adapter image, and with its one patch
      refused, a Guard comes to rest with no Ready condition at all. */
  lemma StatusCanStayUnset(p: Params, guard: GuardSpec, providers: map<Key, ProviderSpec>)
    requires p.image == ""
    ensures var s0 := State(Some(guard), 1, 1, providers, map[], Unset, true, Idle, false);
            var s1 := Advance(p, s0, Done);
            var s2 := Advance(p, s1, Refused);
            && Run(p, [s0, s1, s2]) && Resting(s2) && CurrentPlan(p, s2) == Stop(AdapterNotConfigured)
            && s2.status == Unset && !StatusRight(p, s2, s2.status)
  {
    var s0 := State(Some(guard), 1, 1, providers, map[], Unset, true, Idle, false);
    var s1 := Advance(p, s0, Done);
    var s2 := Advance(p, s1, Refused);
    var ss := [s0, s1, s2];
    assert Step(p, s0, s1);
    assert Step(p, s1, s2);
    forall i | 0 <= i < |ss| - 1 ensures Step(p, ss[i], ss[i + 1]) { }
  }

  // ------------------------------------------------------------------ roll-outs

  function UsedProvider(p: Params, s: State): Option<ProviderSpec>
    requires s.guard.Some?
  {
    Get(s.providers, GuardWatch.ProviderKey(p.key, s.guard.value))
  }

  /** The two configurations do not collide. */
  predicate ToldApart(p: Params, s: State, t: State)
    requires s.guard.Some? && UsedProvider(p, s).Some? && t.guard.Some? && UsedProvider(p, t).Some?
  {
    var a, b := UsedProvider(p, s).value, UsedProvider(p, t).value;
    a.baseUrl.Some? && b.baseUrl.Some? &&
    var c, d := ConfigOf(s.guard.value, a), ConfigOf(t.guard.value, b);
    p.enc.marshal(c).Some? && p.enc.marshal(d).Some? && NoCollision(p.enc, c, d)
  }

  /** The Deployment is rolled exactly when the configuration changes: at any two moments
      of a run at which the Guard rests and is deployed, the Deployments are the same if
      and only if modes, endpoint and presidio options are, unless the two configurations
      collide. */
  lemma RollsOutIff(p: Params, ss: seq<State>, m: nat, n: nat)
    requires Run(p, ss) && m < |ss| && n < |ss|
    requires Resting(ss[m]) && CurrentPlan(p, ss[m]).Deploy?
    requires Resting(ss[n]) && CurrentPlan(p, ss[n]).Deploy?
    ensures UsedProvider(p, ss[m]).Some? && UsedProvider(p, ss[n]).Some?
    ensures ToldApart(p, ss[m], ss[n]) ==>
              (Get(ss[m].children, IdOf(p, DeploymentSlot)) == Get(ss[n].children, IdOf(p, DeploymentSlot)) <==>
               SameSettings(ss[m].guard.value, UsedProvider(p, ss[m]).value,
                            ss[n].guard.value, UsedProvider(p, ss[n]).value))
  {
    PrefixRun(p, ss, m);
    PrefixRun(p, ss, n);
    NothingMissed(p, ss[..m + 1]);
    NothingMissed(p, ss[..n + 1]);
    if ToldApart(p, ss[m], ss[n]) {
      HashDistinguishes(p.enc, ss[m].guard.value, UsedProvider(p, ss[m]).value,
                        ss[n].guard.value, UsedProvider(p, ss[n]).value);
    }
  }
}
