/** Runs: sequences whose neighbours are related. The relation is a parameter, so that a proof about a
    run does not have to look inside the step. */
module Runs {

  ghost predicate LinkedAt<T(!new)>(step: (T, T) -> bool, run: seq<T>, i: nat)
    requires i + 1 < |run|
  {
    step(run[i], run[i + 1])
  }

  ghost predicate Linked<T(!new)>(step: (T, T) -> bool, run: seq<T>) {
    forall i :: 0 <= i < |run| - 1 ==> LinkedAt(step, run, i)
  }

  lemma LinkFront<T(!new)>(step: (T, T) -> bool, first: T, run: seq<T>)
    requires run != [] && Linked(step, run) && step(first, run[0])
    ensures Linked(step, [first] + run)
  {
    forall i | 0 <= i < |run| ensures LinkedAt(step, [first] + run, i) {
      if i > 0 {
        assert LinkedAt(step, run, i - 1);
      }
    }
  }
}
