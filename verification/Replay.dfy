/** Running a step machine through a list of calls: how the reconcilers in the form of
    their source are compared with the machines. */
module Replay {

  /** When the machine takes a call, and what the call does then. */
  datatype Machine<!S, !C> = Machine(ready: S -> bool, step: (S, C) -> S)

  /** The state after the calls, as long as the machine takes them. */
  function Play<S, C>(m: Machine<S, C>, s: S, calls: seq<C>): S
    decreases |calls|
  {
    if calls == [] || !m.ready(s) then s else Play(m, m.step(s, calls[0]), calls[1..])
  }

  lemma {:induction false} PlayAppend<S, C>(m: Machine<S, C>, s: S, a: seq<C>, b: seq<C>)
    ensures Play(m, s, a + b) == Play(m, Play(m, s, a), b)
    decreases |a|
  {
    if a == [] {
      assert a + b == b;
    } else if m.ready(s) {
      assert (a + b)[1..] == a[1..] + b;
      PlayAppend(m, m.step(s, a[0]), a[1..], b);
    }
  }

  lemma PlayOne<S, C>(m: Machine<S, C>, s: S, c: C)
    requires m.ready(s)
    ensures Play(m, s, [c]) == m.step(s, c)
  {
    assert [c][1..] == [];
  }

  lemma PlayTwo<S, C>(m: Machine<S, C>, s: S, c: C, d: C)
    requires m.ready(s) && m.ready(m.step(s, c))
    ensures Play(m, s, [c, d]) == m.step(m.step(s, c), d)
  {
    assert [c, d] == [c] + [d];
    PlayAppend(m, s, [c], [d]);
    PlayOne(m, s, c);
    PlayOne(m, m.step(s, c), d);
  }
}
