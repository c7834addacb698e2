/** Runs of a transition system: the state after any sequence of actions. */
module Runs {

  function Run<S, A>(step: (S, A) -> S, s: S, actions: seq<A>): S
    decreases |actions|
  {
    if actions == [] then s else Run(step, step(s, actions[0]), actions[1..])
  }

  lemma {:induction false} RunAppend<S, A>(step: (S, A) -> S, s: S, xs: seq<A>, ys: seq<A>)
    ensures Run(step, s, xs + ys) == Run(step, Run(step, s, xs), ys)
    decreases |xs|
  {
    if xs == [] {
      assert xs + ys == ys;
    } else {
      assert (xs + ys)[1..] == xs[1..] + ys;
      RunAppend(step, step(s, xs[0]), xs[1..], ys);
    }
  }

  lemma RunFrom<S, A>(step: (S, A) -> S, s: S, a: A, rest: seq<A>)
    ensures Run(step, s, [a] + rest) == Run(step, step(s, a), rest)
  {
    assert ([a] + rest)[1..] == rest;
  }

  /** What every step keeps, every run keeps. */
  lemma {:induction false} RunKeeps<S(!new), A(!new)>(step: (S, A) -> S, inv: S -> bool, s: S, actions: seq<A>)
    requires inv(s) && forall t, a :: inv(t) ==> inv(step(t, a))
    ensures inv(Run(step, s, actions))
    decreases |actions|
  {
    if actions != [] { RunKeeps(step, inv, step(s, actions[0]), actions[1..]); }
  }

  /** A relation that every step within an invariant respects, and that chains, relates a run's ends. */
  lemma {:induction false} RunRelates<S(!new), A(!new)>(
      step: (S, A) -> S, inv: S -> bool, rel: (S, S) -> bool, s: S, actions: seq<A>)
    requires inv(s) && forall t, a :: inv(t) ==> inv(step(t, a)) && rel(t, step(t, a))
    requires forall t :: rel(t, t)
    requires forall t, u, v :: rel(t, u) && rel(u, v) ==> rel(t, v)
    ensures rel(s, Run(step, s, actions))
    decreases |actions|
  {
    if actions != [] { RunRelates(step, inv, rel, step(s, actions[0]), actions[1..]); }
  }
}
