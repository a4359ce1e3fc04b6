/** How a drain ends, and that it loses no task. */
module PoolDrain {
  import opened PoolSteps
  import opened PoolRuns
  import opened Runs

  function Weight(s: State): nat {
    10 * |s.queue| + 2 * |s.running| + 4 * s.announcing + 3 * s.spawning + 2 * s.starting
    + 2 * s.asleep + s.woken + s.expired + s.oweOne + s.oweAll
  }

  lemma TurnGetsOn(c: Config, s: State)
    requires s.phase != Active
    ensures Weight(Turn(c, s)) <= Weight(s) && Turn(c, s).phase == s.phase
  {
    if s.phase == Drain && s.queue != [] {
      assert |s.running + multiset{s.queue[0]}| == |s.running| + 1;
    }
  }

  lemma EnterGetsOn(c: Config, s: State, at: Entry)
    requires s.phase != Active && Enters(s, at)
    ensures Weight(Next(c, s, Enter(at))) < Weight(s) && Next(c, s, Enter(at)).phase == s.phase
  {
    TurnGetsOn(c, Arrive(s, at));
  }

  lemma FinishGetsOn(c: Config, s: State, t: Task, panicked: bool)
    requires s.phase != Active && t in s.running
    ensures Weight(Next(c, s, Finish(t, panicked))) < Weight(s)
    ensures Next(c, s, Finish(t, panicked)).phase == s.phase
  {
    assert |s.running - multiset{t}| == |s.running| - 1;
    TurnGetsOn(c, Return(s, t, false));
  }

  /** After `start_drain` every step that does anything brings the end nearer, unless it
      submits a task. */
  lemma DrainGetsOn(c: Config, s: State, e: Event)
    requires s.phase != Active && !e.Submit? && Next(c, s, e) != s
    ensures Next(c, s, e).phase == s.phase && Weight(Next(c, s, e)) < Weight(s)
  {
    match e
    case Enter(at) => EnterGetsOn(c, s, at);
    case Finish(t, panicked) => FinishGetsOn(c, s, t, panicked);
    case _ =>
  }

  // A run from `s` in which every step does something and none submits a task.
  ghost predicate BusyRun(c: Config, s: State, log: seq<Event>, run: seq<State>) {
    IsRun(s, Step(c), log, run) && forall i :: 0 <= i < |log| ==> !log[i].Submit? && run[i + 1] != run[i]
  }

  /** A drain is over after a number of steps known when it starts. */
  lemma {:induction false} DrainEnds(c: Config, s: State, log: seq<Event>, run: seq<State>)
    requires s.phase != Active && BusyRun(c, s, log, run)
    ensures run[|log|].phase == s.phase && |log| + Weight(run[|log|]) <= Weight(s)
  {
    if log != [] {
      var front, e := log[..|log| - 1], log[|log| - 1];
      Shorter(s, Step(c), log, run);
      assert forall i :: 0 <= i < |front| ==> front[i] == log[i];
      assert !e.Submit? && run[|log|] != run[|log| - 1];
      DrainEnds(c, s, front, run[..|log|]);
      DrainGetsOn(c, run[|log| - 1], e);
    }
  }

  // What the pool and its tasks do by themselves: no submission, and no luck with a sleep
  // that ends for no reason or by its timeout.
  predicate ByItself(e: Event) { !e.Submit? && !e.SpuriousWake? && !e.TimeOut? }

  ghost predicate CanMove(c: Config, s: State) {
    exists e: Event :: ByItself(e) && Next(c, s, e) != s
  }

  lemma SomebodyMoves(c: Config, s: State)
    requires s.starting > 0 || s.woken > 0 || s.expired > 0 || |s.running| > 0
    ensures CanMove(c, s)
  {
    if s.starting > 0 {
      assert Next(c, s, Enter(Fresh)).starting != s.starting;
    } else if s.woken > 0 {
      assert Next(c, s, Enter(Woken)).woken != s.woken;
    } else if s.expired > 0 {
      assert Next(c, s, Enter(Expired)).expired != s.expired;
    } else {
      var t :| t in s.running;
      assert Next(c, s, Finish(t, true)).panics != s.panics;
    }
  }

  lemma WorkersMove(c: Config, s: State)
    requires Inv(c, s) && s.phase != Active && s.threads > 0
    ensures CanMove(c, s)
  {
    if s.starting > 0 || s.woken > 0 || s.expired > 0 || |s.running| > 0 {
      SomebodyMoves(c, s);
    } else if s.announcing > 0 {
      assert Next(c, s, NotifyAll).announcing != s.announcing;
    } else if s.spawning > 0 {
      assert Next(c, s, Spawn).spawning != s.spawning;
    } else {
      assert s.asleep > 0 && s.oweAll > 0;
      assert Next(c, s, NotifyDrain).oweAll != s.oweAll;
    }
  }

  /** A drain never stands still while there are workers left: workers that all sleep are
      still to be woken by the thread that started it. */
  lemma DrainNeverStandsStill(c: Config, log: seq<Event>, run: seq<State>)
    requires PoolRun(c, log, run) && run[|log|].phase != Active
    ensures run[|log|].threads > 0 ==> CanMove(c, run[|log|])
  {
    RunKeeps(c, log, run);
    if run[|log|].threads > 0 {
      WorkersMove(c, run[|log|]);
    }
  }

  /** So every drain ends: from any reachable state after `start_drain`, a run that goes on
      until nothing moves by itself has a bounded length and leaves no worker, and without
      panics no task either, in every configuration but the one of `LosesNothingIff`. */
  lemma DrainReachesTheEnd(c: Config, log: seq<Event>, run: seq<State>, more: seq<Event>, rest: seq<State>)
    requires PoolRun(c, log, run) && run[|log|].phase != Active
    requires BusyRun(c, run[|log|], more, rest) && !CanMove(c, rest[|more|])
    ensures |more| <= Weight(run[|log|]) && rest[|more|].threads == 0
    ensures var s := rest[|more|];
      s.phase == Drain && s.panics == 0 && (c.min >= 1 || !c.timeout) ==> Complete(s)
  {
    RunKeeps(c, log, run);
    DrainEnds(c, run[|log|], more, rest);
    RunKeepsFrom(c, run[|log|], more, rest);
    var s := rest[|more|];
    if s.threads > 0 {
      WorkersMove(c, s);
    }
    if s.phase == Drain && s.panics == 0 && (c.min >= 1 || !c.timeout) {
      EmptyPoolIsComplete(c, s);
    }
  }

  // What a caller of `drain` hopes for.
  predicate Complete(s: State) { s.queue == [] && s.finished == multiset(s.submitted) }

  ghost predicate LosesNothing(c: Config) {
    forall log: seq<Event>, run: seq<State> :: PoolRun(c, log, run) ==>
      var s := run[|log|]; s.phase == Drain && s.panics == 0 && s.threads == 0 ==> Complete(s)
  }

  ghost predicate LosesNothingEvenIfTasksPanic(c: Config) {
    forall log: seq<Event>, run: seq<State> :: PoolRun(c, log, run) ==>
      var s := run[|log|]; s.phase == Drain && s.threads == 0 ==> Complete(s)
  }

  lemma EmptyPoolIsComplete(c: Config, s: State)
    requires Inv(c, s) && Ordered(s) && s.phase == Drain && s.threads == 0
    requires (s.panics == 0 && (c.min >= 1 || !c.timeout)) || (c.max.None? && s.gaveUp == 0)
    ensures Complete(s)
  {
    assert s.popped + [] == s.popped;
    assert |s.running| == 0;
    assert s.running == multiset{};
  }
}
