/** What the other modules share: Option for absent values, Result for error returns, and runs of steps. */
module Wrappers {

  datatype Option<+T> = None | Some(value: T)

  datatype Result<+T, +E> = Ok(value: T) | Err(error: E)

  /** The steps o(i) ... o(n - 1), in turn. */
  function Iterate<S, E>(step: (S, E) -> S, s: S, o: nat -> E, i: nat, n: nat): S {
    if n <= i then s else step(Iterate(step, s, o, i, n - 1), o(n - 1))
  }

  lemma {:induction false} IterateOn<S, E>(step: (S, E) -> S, s: S, o: nat -> E, i: nat, j: nat, n: nat)
    requires i <= j <= n
    ensures Iterate(step, s, o, i, n) == Iterate(step, Iterate(step, s, o, i, j), o, j, n)
  {
    if j < n {
      IterateOn(step, s, o, i, j, n - 1);
    }
  }
}
