/** Finite runs of a step relation: extending them, joining them, and induction over them. */
module Runs {
  /** n steps lead from s to t. */
  ghost predicate Steps<S(!new)>(next: (S, S) -> bool, s: S, t: S, n: nat)
    decreases n
  {
    if n == 0 then s == t else exists m :: next(s, m) && Steps(next, m, t, n - 1)
  }

  lemma StepsFrom<S(!new)>(next: (S, S) -> bool, s: S, m: S, t: S, n: nat)
    requires next(s, m) && Steps(next, m, t, n)
    ensures Steps(next, s, t, n + 1)
  {
  }

  lemma {:induction false} StepsThen<S(!new)>(next: (S, S) -> bool, s: S, m: S, t: S, n: nat)
    requires Steps(next, s, m, n) && next(m, t)
    ensures Steps(next, s, t, n + 1)
    decreases n
  {
    if n == 0 {
      assert Steps(next, t, t, 0);
    } else {
      var x :| next(s, x) && Steps(next, x, m, n - 1);
      StepsThen(next, x, m, t, n - 1);
    }
  }

  lemma {:induction false} StepsJoin<S(!new)>(next: (S, S) -> bool, s: S, m: S, t: S, i: nat, j: nat)
    requires Steps(next, s, m, i) && Steps(next, m, t, j)
    ensures Steps(next, s, t, i + j)
    decreases j
  {
    if j > 0 {
      var x :| next(m, x) && Steps(next, x, t, j - 1);
      StepsThen(next, s, m, x, i);
      StepsJoin(next, s, x, t, i + 1, j - 1);
    }
  }

  /** What every step keeps holds at the end of every run that it holds at the start of. */
  lemma StepsInduction<S(!new)>(next: (S, S) -> bool, s: S, t: S, n: nat, P: S -> bool)
    requires forall a, b | P(a) && next(a, b) :: P(b)
    requires P(s) && Steps(next, s, t, n)
    ensures P(t)
  {
    var m, k := s, n;
    while k > 0
      invariant P(m) && Steps(next, m, t, k)
    {
      var x :| next(m, x) && Steps(next, x, t, k - 1);
      m, k := x, k - 1;
    }
  }
}
