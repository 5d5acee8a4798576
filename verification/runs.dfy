/** Running a sequence of events through a step function that returns the
    next state and the effects of the step. */
module Runs {

  function Fold<S, E, F>(step: (S, E) -> (S, seq<F>), s: S, events: seq<E>): (S, seq<F>)
    decreases |events|
  {
    if |events| == 0 then (s, [])
    else
      var first := step(s, events[0]);
      var rest := Fold(step, first.0, events[1..]);
      (rest.0, first.1 + rest.1)
  }

  /** Running `a + b` is running `a`, then `b` from where `a` stopped, with
      the effects in that order. */
  lemma {:induction false} FoldAppend<S, E, F>(step: (S, E) -> (S, seq<F>), s: S, a: seq<E>, b: seq<E>)
    ensures Fold(step, s, a + b).0 == Fold(step, Fold(step, s, a).0, b).0
    ensures Fold(step, s, a + b).1 == Fold(step, s, a).1 + Fold(step, Fold(step, s, a).0, b).1
    decreases |a|
  {
    if |a| == 0 {
      assert a + b == b;
    } else {
      assert (a + b)[0] == a[0];
      assert (a + b)[1..] == a[1..] + b;
      FoldAppend(step, step(s, a[0]).0, a[1..], b);
    }
  }
}
