/** States reached by a step relation, and the induction principle for them. */
module Runs {

  ghost predicate ReachedIn<S(!new)>(init: S -> bool, next: (S, S) -> bool, s: S, n: nat)
    decreases n
  {
    if n == 0 then init(s) else exists p :: ReachedIn(init, next, p, n - 1) && next(p, s)
  }

  /** Some run from an initial state ends in s. */
  ghost predicate Reached<S(!new)>(init: S -> bool, next: (S, S) -> bool, s: S) {
    exists n: nat :: ReachedIn(init, next, s, n)
  }

  lemma {:induction false} InductionIn<S(!new)>(init: S -> bool, next: (S, S) -> bool, inv: S -> bool, s: S, n: nat)
    requires forall s :: init(s) ==> inv(s)
    requires forall s, s' :: inv(s) && next(s, s') ==> inv(s')
    requires ReachedIn(init, next, s, n)
    ensures inv(s)
    decreases n
  {
    if n > 0 {
      var p :| ReachedIn(init, next, p, n - 1) && next(p, s);
      InductionIn(init, next, inv, p, n - 1);
    }
  }

  /** What holds initially and is kept by every step holds in every reached state. */
  lemma Induction<S(!new)>(init: S -> bool, next: (S, S) -> bool, inv: S -> bool, s: S)
    requires forall s :: init(s) ==> inv(s)
    requires forall s, s' :: inv(s) && next(s, s') ==> inv(s')
    requires Reached(init, next, s)
    ensures inv(s)
  {
    var n: nat :| ReachedIn(init, next, s, n);
    InductionIn(init, next, inv, s, n);
  }

  lemma Start<S(!new)>(init: S -> bool, next: (S, S) -> bool, s: S)
    requires init(s)
    ensures Reached(init, next, s)
  {
    assert ReachedIn(init, next, s, 0);
  }

  lemma Extend<S(!new)>(init: S -> bool, next: (S, S) -> bool, s: S, s': S)
    requires Reached(init, next, s) && next(s, s')
    ensures Reached(init, next, s')
  {
    var n: nat :| ReachedIn(init, next, s, n);
    assert ReachedIn(init, next, s', n + 1);
  }
}
