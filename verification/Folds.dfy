/** Runs of a step function over a list, from its first element to its last. */
module Folds {

  function After<S, T>(step: (S, T) -> S, s: S, xs: seq<T>): S {
    if |xs| == 0 then s else step(After(step, s, xs[..|xs| - 1]), xs[|xs| - 1])
  }

  /** What the steps add up to. */
  function Sum<S, T>(step: (S, T) -> S, count: (S, T) -> nat, s: S, xs: seq<T>): nat {
    if |xs| == 0 then 0
    else Sum(step, count, s, xs[..|xs| - 1]) + count(After(step, s, xs[..|xs| - 1]), xs[|xs| - 1])
  }

  /** A claim about the state, the sum and the elements so far survives one more step. */
  ghost predicate Extends<S, T>(
    step: (S, T) -> S, count: (S, T) -> nat, claim: (S, nat, seq<T>) -> bool, s: S, sum: nat, xs: seq<T>, x: T)
  {
    claim(s, sum, xs) ==> claim(step(s, x), sum + count(s, x), xs + [x])
  }

  lemma {:induction false} Keeps<S, T>(
    step: (S, T) -> S, count: (S, T) -> nat, claim: (S, nat, seq<T>) -> bool, s: S, xs: seq<T>)
    requires claim(s, 0, [])
    requires forall t: S, sum: nat, ys: seq<T>, y: T :: Extends(step, count, claim, t, sum, ys, y)
    ensures claim(After(step, s, xs), Sum(step, count, s, xs), xs)
    decreases |xs|
  {
    if |xs| == 0 {
      assert xs == [];
    } else {
      var n := |xs| - 1;
      Keeps(step, count, claim, s, xs[..n]);
      assert Extends(step, count, claim, After(step, s, xs[..n]), Sum(step, count, s, xs[..n]), xs[..n], xs[n]);
      assert xs[..n] + [xs[n]] == xs;
    }
  }
}
