/** Runs of a step system: the states that a log of events leads through. */
module Runs {
  /** `run` holds the state before the first event and the state after each event. */
  ghost predicate IsRun<S(!new), E(!new)>(start: S, next: (S, E) -> S, log: seq<E>, run: seq<S>) {
    && |run| == |log| + 1 && run[0] == start
    && forall i :: 0 <= i < |log| ==> run[i + 1] == next(run[i], log[i])
  }

  // A run without its last event.
  lemma Shorter<S(!new), E(!new)>(start: S, next: (S, E) -> S, log: seq<E>, run: seq<S>)
    requires IsRun(start, next, log, run) && log != []
    ensures IsRun(start, next, log[..|log| - 1], run[..|log|])
    ensures run[|log|] == next(run[|log| - 1], log[|log| - 1])
  {
    var front := log[..|log| - 1];
    forall i | 0 <= i < |front| ensures run[..|log|][i + 1] == next(run[..|log|][i], front[i]) {
      assert front[i] == log[i];
    }
  }

  lemma Longer<S(!new), E(!new)>(start: S, next: (S, E) -> S, log: seq<E>, run: seq<S>, e: E)
    requires IsRun(start, next, log, run)
    ensures IsRun(start, next, log + [e], run + [next(run[|log|], e)])
  {
  }

  /** Every log of events has a run. */
  lemma {:induction false} RunOf<S(!new), E(!new)>(start: S, next: (S, E) -> S, log: seq<E>) returns (run: seq<S>)
    ensures IsRun(start, next, log, run)
  {
    if log == [] {
      run := [start];
    } else {
      var front := log[..|log| - 1];
      run := RunOf(start, next, front);
      Longer(start, next, front, run, log[|log| - 1]);
      assert front + [log[|log| - 1]] == log;
      run := run + [next(run[|front|], log[|log| - 1])];
    }
  }
}
