/** Runs of n steps, and induction over them. */
module Induction {

  /** All states of a run of n steps. */
  function States<S>(start: S, step: (nat, S) -> S, n: nat): (ss: seq<S>)
    ensures |ss| == n + 1
  {
    if n == 0 then [start]
    else
      var ss := States(start, step, n - 1);
      ss + [step(n - 1, ss[n - 1])]
  }

  lemma {:induction false} StatesPrefix<S>(start: S, step: (nat, S) -> S, m: nat, n: nat)
    requires m <= n
    ensures States(start, step, n)[m] == States(start, step, m)[m]
    decreases n
  {
    if m < n {
      StatesPrefix(start, step, m, n - 1);
    }
  }

  lemma FirstState<S>(start: S, step: (nat, S) -> S, n: nat)
    ensures States(start, step, n)[0] == start
  {
    StatesPrefix(start, step, 0, n);
  }

  lemma NextState<S>(start: S, step: (nat, S) -> S, m: nat, n: nat)
    requires m < n
    ensures States(start, step, n)[m + 1] == step(m, States(start, step, n)[m])
  {
    StatesPrefix(start, step, m, n);
    StatesPrefix(start, step, m + 1, n);
  }

  lemma {:induction false} Throughout(holds: nat -> bool, m: nat, n: nat)
    requires m <= n && holds(m) && forall x: nat :: m <= x < n && holds(x) ==> holds(x + 1)
    ensures holds(n)
    decreases n
  {
    if m < n {
      Throughout(holds, m, n - 1);
    }
  }
}
