/** Iterating a step function along an index. */
module Iterations {

  /** n steps from x, with indices k, k + 1, ... */
  ghost function Iterate<S>(step: (S, nat) -> S, x: S, k: nat, n: nat): S
    decreases n
  {
    if n == 0 then x else Iterate(step, step(x, k), k + 1, n - 1)
  }

  lemma {:induction false} Split<S>(step: (S, nat) -> S, x: S, k: nat, m: nat, n: nat)
    ensures Iterate(step, x, k, m + n) == Iterate(step, Iterate(step, x, k, m), k + m, n)
    decreases m
  {
    if m > 0 {
      Split(step, step(x, k), k + 1, m - 1, n);
    }
  }

  /** What every step keeps, every run keeps. */
  lemma {:induction false} Keeps<S(!new)>(step: (S, nat) -> S, inv: (S, nat) -> bool, x: S, k: nat, n: nat)
    requires inv(x, k) && forall y: S, i: nat :: inv(y, i) ==> inv(step(y, i), i + 1)
    ensures inv(Iterate(step, x, k, n), k + n)
    decreases n
  {
    if n > 0 {
      Keeps(step, inv, step(x, k), k + 1, n - 1);
    }
  }
}
