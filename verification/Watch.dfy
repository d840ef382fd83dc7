/** The controller runtime's work queue and watches, for any reconciler.

    A reconcile of a key is a sequence of API reads, each chosen from the answers
    so far.  Objects change at any time, also while reconciles are in flight; a
    change is delivered later as an event, and the watch handler maps the event to
    keys on the world as it is then.  The queue holds each key once; a key that is
    queued while it is in flight runs again afterwards.

    The main result: if the watch mapping covers the reads (`Covers`), then a key
    that is neither queued nor in flight nor awaiting an event was last reconciled
    on exactly what a reconcile would read now. */
module Watch {
  import opened Wrappers

  datatype Controller<!K, !W, !Q, !A, !E> = Controller(
    ask: (K, seq<A>) -> Option<Q>,  // the next read; None once everything is read
    answer: (W, Q) -> A,            // what a read returns
    mapped: (W, E) -> set<K>,       // the keys the handlers enqueue for an event
    present: (W, K) -> bool)        // the reconciled object exists

  datatype State<W, K, A, E> = State(
    world: W,
    events: set<E>,            // changes not yet seen by the handlers
    queued: set<K>,
    running: map<K, seq<A>>,   // answers read so far by reconciles in flight
    last: map<K, seq<A>>)      // answers of the last reconcile that was not retried

  /** `t` is what the reads of `k` return, as far as they go, on world `w`. */
  ghost predicate Consistent<K, W, Q, A, E>(c: Controller<K, W, Q, A, E>, w: W, k: K, t: seq<A>) {
    forall i | 0 <= i < |t| :: ReadAt(c, w, k, t, i)
  }

  ghost predicate ReadAt<K, W, Q, A, E>(c: Controller<K, W, Q, A, E>, w: W, k: K, t: seq<A>, i: nat)
    requires i < |t|
  {
    var q := c.ask(k, t[..i]);
    q.Some? && t[i] == c.answer(w, q.value)
  }

  /** A controller that asks at most `n` questions has transcripts of at most `n` answers. */
  lemma ReadsBounded<K, W, Q, A(!new), E>(c: Controller<K, W, Q, A, E>, w: W, k: K, t: seq<A>, n: nat)
    requires Consistent(c, w, k, t)
    requires forall u: seq<A> :: |u| >= n ==> c.ask(k, u) == None
    ensures |t| <= n
  {
    if |t| > 0 {
      var i := |t| - 1;
      assert ReadAt(c, w, k, t, i);
      assert |t[..i]| == i;
    }
  }

  /** `k` will be reconciled (again) without any further change. */
  ghost predicate Awaited<K, W, Q, A, E(!new)>(c: Controller<K, W, Q, A, E>, s: State<W, K, A, E>, k: K) {
    k in s.queued || exists e :: e in s.events && k in c.mapped(s.world, e)
  }

  // ------------------------------------------------------------------- steps

  ghost predicate Init<K(!new), W, Q, A, E(!new)>(c: Controller<K, W, Q, A, E>, s: State<W, K, A, E>) {
    && s.running == map[] && s.last == map[]
    && forall k :: c.present(s.world, k) ==> Awaited(c, s, k)
  }

  /** Object `e` is created, updated or deleted. */
  ghost predicate Change<K, W(!new), Q, A, E>(
    s: State<W, K, A, E>, s': State<W, K, A, E>, e: E, only: (W, W, E) -> bool)
  {
    && only(s.world, s'.world, e)
    && s' == s.(world := s'.world, events := s.events + {e})
  }

  ghost predicate Handle<K, W, Q, A, E>(
    c: Controller<K, W, Q, A, E>, s: State<W, K, A, E>, s': State<W, K, A, E>, e: E)
  {
    && e in s.events
    && s' == s.(events := s.events - {e}, queued := s.queued + c.mapped(s.world, e))
  }

  /** Enqueued for any other reason: resync, owned objects, unrelated watches. */
  ghost predicate Nudge<K, W, A, E>(s: State<W, K, A, E>, s': State<W, K, A, E>, k: K) {
    s' == s.(queued := s.queued + {k})
  }

  ghost predicate Start<K, W, A, E>(s: State<W, K, A, E>, s': State<W, K, A, E>, k: K) {
    && k in s.queued && k !in s.running
    && s' == s.(queued := s.queued - {k}, running := s.running[k := []])
  }

  ghost predicate Read<K, W, Q, A, E>(c: Controller<K, W, Q, A, E>, s: State<W, K, A, E>, s': State<W, K, A, E>, k: K) {
    && k in s.running
    && var q := c.ask(k, s.running[k]);
    && q.Some?
    && s' == s.(running := s.running[k := s.running[k] + [c.answer(s.world, q.value)]])
  }

  /** The reconcile returns an error at any point and its key is queued again. */
  ghost predicate Retry<K, W, A, E>(s: State<W, K, A, E>, s': State<W, K, A, E>, k: K) {
    && k in s.running
    && s' == s.(running := s.running - {k}, queued := s.queued + {k})
  }

  /** The reconcile returns without an error after its last read. */
  ghost predicate Finish<K, W, Q, A, E>(
    c: Controller<K, W, Q, A, E>, s: State<W, K, A, E>, s': State<W, K, A, E>, k: K)
  {
    && k in s.running
    && c.ask(k, s.running[k]) == None
    && s' == s.(running := s.running - {k}, last := s.last[k := s.running[k]])
  }

  ghost predicate Next<K(!new), W(!new), Q, A, E(!new)>(
    c: Controller<K, W, Q, A, E>, only: (W, W, E) -> bool, s: State<W, K, A, E>, s': State<W, K, A, E>)
  {
    || (exists e :: Change<K, W, Q, A, E>(s, s', e, only))
    || (exists e :: Handle(c, s, s', e))
    || (exists k :: Nudge(s, s', k))
    || (exists k :: Start(s, s', k))
    || (exists k :: Read(c, s, s', k))
    || (exists k :: Retry(s, s', k))
    || (exists k :: Finish(c, s, s', k))
  }

  ghost predicate Run<K(!new), W(!new), Q, A, E(!new)>(
    c: Controller<K, W, Q, A, E>, only: (W, W, E) -> bool, ss: seq<State<W, K, A, E>>)
  {
    && ss != [] && Init(c, ss[0])
    && forall i | 0 <= i < |ss| - 1 :: Next(c, only, ss[i], ss[i + 1])
  }

  // -------------------------------------------------------------- obligation

  /** A change of `e` that the handlers do not map to `k` (on the world after the
      change) leaves everything about `k` as it was: the answers of its reads,
      whether it exists, and which pending events are mapped to it. */
  ghost predicate Unaffected<K, W, Q, A(!new), E(!new)>(c: Controller<K, W, Q, A, E>, w: W, w': W, k: K) {
    && (forall t :: Consistent(c, w, k, t) ==> Consistent(c, w', k, t))
    && (c.present(w', k) ==> c.present(w, k))
    && (forall e :: k in c.mapped(w, e) ==> k in c.mapped(w', e))
  }

  ghost predicate Covers<K(!new), W(!new), Q, A(!new), E(!new)>(
    c: Controller<K, W, Q, A, E>, only: (W, W, E) -> bool)
  {
    forall w, w', e, k :: only(w, w', e) && k !in c.mapped(w', e) ==> Unaffected(c, w, w', k)
  }

  // --------------------------------------------------------------- invariant

  /** Nothing is lost about `k`. */
  ghost predicate UpToDate<K, W, Q, A, E(!new)>(c: Controller<K, W, Q, A, E>, s: State<W, K, A, E>, k: K) {
    Awaited(c, s, k) ||
    if k in s.running then Consistent(c, s.world, k, s.running[k])
    else if k in s.last then Consistent(c, s.world, k, s.last[k]) && c.ask(k, s.last[k]) == None
    else !c.present(s.world, k)
  }

  ghost predicate Inv<K(!new), W, Q, A, E(!new)>(c: Controller<K, W, Q, A, E>, s: State<W, K, A, E>) {
    forall k :: UpToDate(c, s, k)
  }

  lemma ChangeKeeps<K(!new), W(!new), Q, A(!new), E(!new)>(
    c: Controller<K, W, Q, A, E>, only: (W, W, E) -> bool, s: State<W, K, A, E>, s': State<W, K, A, E>, e: E, k: K)
    requires Covers(c, only) && UpToDate(c, s, k) && Change<K, W, Q, A, E>(s, s', e, only)
    ensures UpToDate(c, s', k)
  {
    if !Awaited(c, s', k) {
      assert e in s'.events;
      assert k !in c.mapped(s'.world, e);
      assert Unaffected(c, s.world, s'.world, k);
      forall d | d in s.events ensures k !in c.mapped(s.world, d) {
        assert d in s'.events;
      }
    }
  }

  lemma HandleKeeps<K(!new), W, Q, A, E(!new)>(
    c: Controller<K, W, Q, A, E>, s: State<W, K, A, E>, s': State<W, K, A, E>, e: E, k: K)
    requires UpToDate(c, s, k) && Handle(c, s, s', e)
    ensures UpToDate(c, s', k)
  {
    if Awaited(c, s, k) && k !in s.queued {
      var d :| d in s.events && k in c.mapped(s.world, d);
      if d != e { assert d in s'.events; }
    }
  }

  /** A step that changes neither the world nor the events. */
  lemma QuietKeeps<K(!new), W(!new), Q, A, E(!new)>(
    c: Controller<K, W, Q, A, E>, s: State<W, K, A, E>, s': State<W, K, A, E>, k: K)
    requires UpToDate(c, s, k)
    requires exists j ::
      Nudge(s, s', j) || Start(s, s', j) || Read(c, s, s', j) || Retry(s, s', j) || Finish(c, s, s', j)
    ensures UpToDate(c, s', k)
  {
    assert s'.world == s.world && s'.events == s.events;
    var j :| Nudge(s, s', j) || Start(s, s', j) || Read(c, s, s', j) || Retry(s, s', j) || Finish(c, s, s', j);
    if Read(c, s, s', j) && j == k && !Awaited(c, s', k) {
      var t := s.running[k];
      var t' := s'.running[k];
      forall i | 0 <= i < |t'| ensures ReadAt(c, s.world, k, t', i) {
        assert t'[..i] == t[..i];
        if i < |t| { assert ReadAt(c, s.world, k, t, i); } else { assert t[..i] == t; }
      }
    }
  }

  lemma StepKeeps<K(!new), W(!new), Q, A(!new), E(!new)>(
    c: Controller<K, W, Q, A, E>, only: (W, W, E) -> bool, s: State<W, K, A, E>, s': State<W, K, A, E>)
    requires Covers(c, only) && Inv(c, s) && Next(c, only, s, s')
    ensures Inv(c, s')
  {
    forall k ensures UpToDate(c, s', k) {
      assert UpToDate(c, s, k);
      if e :| Change<K, W, Q, A, E>(s, s', e, only) {
        ChangeKeeps(c, only, s, s', e, k);
      } else if e :| Handle(c, s, s', e) {
        HandleKeeps(c, s, s', e, k);
      } else {
        QuietKeeps(c, s, s', k);
      }
    }
  }

  /** No lost wakeups, in every state of every run. */
  lemma {:induction false} NoLostWakeups<K(!new), W(!new), Q, A(!new), E(!new)>(
    c: Controller<K, W, Q, A, E>, only: (W, W, E) -> bool, ss: seq<State<W, K, A, E>>)
    requires Covers(c, only) && Run(c, only, ss)
    ensures Inv(c, ss[|ss| - 1])
  {
    if |ss| == 1 {
      forall k ensures UpToDate(c, ss[0], k) { }
    } else {
      var front := ss[..|ss| - 1];
      forall i | 0 <= i < |front| - 1 ensures Next(c, only, front[i], front[i + 1]) {
        assert Next(c, only, ss[i], ss[i + 1]);
      }
      NoLostWakeups(c, only, front);
      assert Next(c, only, ss[|ss| - 2], ss[|ss| - 1]);
      StepKeeps(c, only, ss[|ss| - 2], ss[|ss| - 1]);
    }
  }
}
