/** What the pool guarantees in every run. */
module PoolRuns {
  import opened PoolSteps
  import opened Runs

  // Workers that were started but have not been inside the lock yet.
  function Coming(s: State): nat { s.announcing + s.spawning + s.starting }

  /** Both counters.  `inside` is 1 while a worker stands in the locked region itself. */
  predicate Counted(s: State, inside: nat) {
    && s.threads == Coming(s) + s.asleep + s.woken + s.expired + |s.running| + inside
    && s.idle == s.threads - |s.running|
  }

  function Cap(c: Config): nat
    requires c.max.Some?
  {
    var m := if c.min > c.max.value then c.min else c.max.value;
    if m > 1 then m else 1
  }

  predicate Capped(c: Config, s: State) {
    && (c.max.Some? ==> s.threads <= Cap(c))
    && (!c.timeout ==> s.expired == 0 && s.gaveUp == 0)
  }

  // A queued task never waits on sleepers alone.
  predicate HandedOff(s: State, inside: nat) {
    s.phase != Shutdown && s.asleep > 0 ==> |s.queue| <= s.woken + Coming(s) + s.oweOne + inside
  }

  predicate Grown(c: Config, s: State) {
    s.phase != Shutdown && s.panics == 0 && s.gaveUp == 0 ==>
      (c.max.Some? && s.threads >= c.max.value) || 5 * s.idle >= |s.queue|
  }

  // Nobody sleeps through the end of the pool.
  predicate Roused(s: State) { s.phase != Active && s.asleep > 0 ==> s.oweAll > 0 }

  predicate Drained(c: Config, s: State) {
    s.phase != Shutdown && s.panics == 0 && (c.min >= 1 || !c.timeout) && s.threads == 0 ==> s.queue == []
  }

  // Without a cap and as long as nobody gives up, a queued task has an idle worker to take it.
  predicate Spare(c: Config, s: State) {
    s.phase != Shutdown && c.max.None? && s.gaveUp == 0 ==> s.idle > 0 || s.queue == []
  }

  predicate Held(c: Config, s: State, inside: nat) {
    && Counted(s, inside) && Capped(c, s) && HandedOff(s, inside) && Grown(c, s) && Roused(s)
    && Drained(c, s) && Spare(c, s)
  }

  predicate Inv(c: Config, s: State) { Held(c, s, 0) }

  // The queue and the history of the tasks.
  predicate Ordered(s: State) {
    && s.popped + s.queue == s.submitted
    && multiset(s.popped) == s.finished + s.running
  }

  lemma SubmitKeeps(c: Config, s: State, t: Task)
    requires Inv(c, s)
    ensures Inv(c, Next(c, s, Submit(t)))
  {
  }

  lemma TurnKeeps(c: Config, s: State)
    requires Held(c, s, 1)
    ensures Inv(c, Turn(c, s))
  {
    if s.phase != Shutdown && s.queue != [] {
      assert |s.running + multiset{s.queue[0]}| == |s.running| + 1;
    }
  }

  /** When a worker that stands inside may leave for good. */
  predicate MayLeave(c: Config, s: State) {
    && HandedOff(s, 0) && Spare(c, Exit(s))
    && (s.phase == Shutdown || s.panics > 0 || (s.phase == Drain && s.queue == [])
        || (s.threads > c.min && s.gaveUp > 0))
  }

  lemma ExitKeeps(c: Config, s: State)
    requires Held(c, s, 1) && MayLeave(c, s)
    ensures Inv(c, Exit(s))
  {
  }

  lemma EnterKeeps(c: Config, s: State, at: Entry)
    requires Inv(c, s) && Enters(s, at)
    ensures Inv(c, Next(c, s, Enter(at)))
  {
    var s' := Arrive(s, at);
    if at == Expired && s.threads > c.min {
    } else {
      TurnKeeps(c, s');
    }
  }

  /** A worker comes back to the lock with its task behind it. */
  function Return(s: State, t: Task, panicked: bool): State {
    s.(running := s.running - multiset{t}, finished := s.finished + multiset{t}, idle := s.idle + 1,
       panics := if panicked then s.panics + 1 else s.panics)
  }

  lemma ReturnKeeps(c: Config, s: State, t: Task, panicked: bool)
    requires Inv(c, s) && t in s.running
    ensures Held(c, Return(s, t, panicked), 1)
    ensures panicked ==> MayLeave(c, Return(s, t, panicked))
  {
    assert |s.running - multiset{t}| == |s.running| - 1;
  }

  lemma FinishKeeps(c: Config, s: State, t: Task, panicked: bool)
    requires Inv(c, s) && t in s.running
    ensures Inv(c, Next(c, s, Finish(t, panicked)))
  {
    ReturnKeeps(c, s, t, panicked);
    var s' := Return(s, t, panicked);
    if panicked {
      assert Next(c, s, Finish(t, true)) == Exit(s');
      ExitKeeps(c, s');
    } else {
      assert Next(c, s, Finish(t, false)) == Turn(c, s');
      TurnKeeps(c, s');
    }
  }

  lemma WakeKeeps(c: Config, s: State, e: Event)
    requires Inv(c, s) && !e.Submit? && !e.Enter? && !e.Finish?
    ensures Inv(c, Next(c, s, e))
  {
  }

  lemma StepKeeps(c: Config, s: State, e: Event)
    requires Inv(c, s)
    ensures Inv(c, Next(c, s, e))
  {
    match e
    case Submit(t) => SubmitKeeps(c, s, t);
    case Enter(at) => if Enters(s, at) { EnterKeeps(c, s, at); }
    case Finish(t, panicked) => if t in s.running { FinishKeeps(c, s, t, panicked); }
    case _ => WakeKeeps(c, s, e);
  }

  lemma TurnKeepsOrder(c: Config, s: State)
    requires Ordered(s)
    ensures Ordered(Turn(c, s))
  {
    if s.phase != Shutdown && s.queue != [] {
      assert s.queue == [s.queue[0]] + s.queue[1..];
      assert multiset(s.popped + [s.queue[0]]) == multiset(s.popped) + multiset{s.queue[0]};
    }
  }

  lemma StepKeepsOrder(c: Config, s: State, e: Event)
    requires Ordered(s)
    ensures Ordered(Next(c, s, e))
  {
    match e
    case Submit(t) => assert s.popped + (s.queue + [t]) == s.submitted + [t];
    case Enter(at) => TurnKeepsOrder(c, Arrive(s, at));
    case Finish(t, panicked) =>
      if t in s.running {
        var s' := s.(running := s.running - multiset{t}, finished := s.finished + multiset{t}, idle := s.idle + 1);
        assert s.finished + s.running == s'.finished + s'.running;
        TurnKeepsOrder(c, s');
      }
    case _ =>
  }

  /** Every state reachable from a sound one keeps the invariant and the order of the tasks. */
  lemma {:induction false} RunKeepsFrom(c: Config, s: State, log: seq<Event>, run: seq<State>)
    requires IsRun(s, Step(c), log, run) && Inv(c, s) && Ordered(s)
    ensures Inv(c, run[|log|]) && Ordered(run[|log|])
  {
    if log != [] {
      Shorter(s, Step(c), log, run);
      RunKeepsFrom(c, s, log[..|log| - 1], run[..|log|]);
      StepKeeps(c, run[|log| - 1], log[|log| - 1]);
      StepKeepsOrder(c, run[|log| - 1], log[|log| - 1]);
    }
  }

  lemma RunKeeps(c: Config, log: seq<Event>, run: seq<State>)
    requires PoolRun(c, log, run)
    ensures Inv(c, run[|log|]) && Ordered(run[|log|])
  {
    RunKeepsFrom(c, Start(c), log, run);
  }

  /** Hand-off: once everything that was announced has happened, a task that is still queued
      finds nobody asleep: all workers are inside tasks or on their way out. */
  lemma NoTaskWaitsOnSleepers(c: Config, log: seq<Event>, run: seq<State>)
    requires PoolRun(c, log, run)
    ensures var s := run[|log|]; s.phase != Shutdown && s.asleep > 0 ==> |s.queue| <= s.woken + Coming(s) + s.oweOne
    ensures var s := run[|log|]; s.phase != Shutdown && s.queue != [] && s.woken + Coming(s) + s.oweOne == 0 ==>
      s.threads == |s.running| + s.expired
  {
    RunKeeps(c, log, run);
  }

  /** The growth policy, between any two locked regions. */
  lemma PoolGrowsWithItsQueue(c: Config, log: seq<Event>, run: seq<State>)
    requires PoolRun(c, log, run)
    ensures var s := run[|log|]; !c.timeout && s.panics == 0 && s.phase != Shutdown ==>
      (c.max.Some? && s.threads >= c.max.value) || 5 * s.idle >= |s.queue|
  {
    RunKeeps(c, log, run);
  }

  // One more thread, announced, for want of idle ones, and below the cap.
  predicate GrowsRightly(c: Config, s: State, s': State) {
    && s'.threads == s.threads + 1 && s'.announcing == s.announcing + 1
    && (s'.idle == 1 || 5 * (s'.idle - 1) < |s'.queue|)
    && (s.threads == 0 || c.max.None? || s.threads < c.max.value)
  }

  lemma TurnGrowsRightly(c: Config, s: State)
    ensures var s' := Turn(c, s); s'.threads <= s.threads || GrowsRightly(c, s, s')
  {
  }

  lemma SubmitGrowsRightly(c: Config, s: State, t: Task)
    ensures var s' := Next(c, s, Submit(t)); s'.threads <= s.threads || GrowsRightly(c, s, s')
  {
  }

  lemma FinishGrowsRightly(c: Config, s: State, t: Task, panicked: bool)
    ensures var s' := Next(c, s, Finish(t, panicked)); s'.threads <= s.threads || GrowsRightly(c, s, s')
  {
    if !panicked { TurnGrowsRightly(c, Return(s, t, false)); }
  }

  lemma OthersDoNotGrow(c: Config, s: State, e: Event)
    requires !e.Submit? && !e.Enter? && !e.Finish?
    ensures Next(c, s, e).threads <= s.threads
  {
  }

  /** It grows no earlier than it must: a thread is added, one at a time, only when nobody was
      idle or the queue was longer than five times the idle ones, and only below the cap. */
  lemma PoolGrowsOnlyWhenItMust(c: Config, s: State, e: Event)
    ensures var s' := Next(c, s, e); s'.threads <= s.threads || GrowsRightly(c, s, s')
  {
    match e
    case Submit(t) => SubmitGrowsRightly(c, s, t);
    case Enter(at) => TurnGrowsRightly(c, Arrive(s, at));
    case Finish(t, panicked) => FinishGrowsRightly(c, s, t, panicked);
    case _ => OthersDoNotGrow(c, s, e);
  }

  // One worker fewer, and why.
  predicate LeavesRightly(c: Config, s: State, e: Event, s': State) {
    && s'.threads == s.threads - 1 && s'.idle - s.idle in {0, -1}
    && (s'.panics > s.panics || s.phase == Shutdown || (s.phase == Drain && s.queue == [])
        || (e == Enter(Expired) && s.threads > c.min))
  }

  lemma TurnLeavesRightly(c: Config, s: State)
    requires Turn(c, s).threads < s.threads
    ensures Turn(c, s) == Exit(s) && (s.phase == Shutdown || (s.phase == Drain && s.queue == []))
  {
  }

  /** A worker leaves, one at a time, only after a panic, in a shutdown, in a drain with nothing
      left to take, or with its idle time over and more than the minimum there. */
  lemma WorkersLeaveWithReason(c: Config, s: State, e: Event)
    ensures var s' := Next(c, s, e); s'.threads >= s.threads || LeavesRightly(c, s, e, s')
  {
    match e
    case Enter(at) =>
      var s' := Arrive(s, at);
      if Turn(c, s').threads < s.threads { TurnLeavesRightly(c, s'); }
    case Finish(t, panicked) =>
      var s' := Return(s, t, panicked);
      if Turn(c, s').threads < s.threads { TurnLeavesRightly(c, s'); }
    case _ => NobodyElseLeaves(c, s, e);
  }

  lemma NobodyElseLeaves(c: Config, s: State, e: Event)
    requires !e.Enter? && !e.Finish?
    ensures Next(c, s, e).threads >= s.threads
  {
  }

  lemma TurnKeepsThreads(c: Config, s: State)
    requires s.phase == Active
    ensures Turn(c, s).threads >= s.threads
  {
  }

  lemma StepKeepsMinimum(c: Config, s: State, e: Event)
    requires s.phase == Active && s.panics == 0 ==> s.threads >= c.min
    ensures var s' := Next(c, s, e); s'.phase == Active && s'.panics == 0 ==> s'.threads >= c.min
  {
    if s.phase == Active {
      match e
      case Enter(at) => TurnKeepsThreads(c, Arrive(s, at));
      case Finish(t, panicked) => TurnKeepsThreads(c, Return(s, t, panicked));
      case _ =>
    }
  }

  /** While the pool is in use and no task has panicked it never falls below its minimum. */
  lemma {:induction false} MinimumIsKept(c: Config, log: seq<Event>, run: seq<State>)
    requires PoolRun(c, log, run)
    ensures var s := run[|log|]; s.phase == Active && s.panics == 0 ==> s.threads >= c.min
  {
    if log != [] {
      var front := log[..|log| - 1];
      Shorter(Start(c), Step(c), log, run);
      MinimumIsKept(c, front, run[..|log|]);
      StepKeepsMinimum(c, run[|log| - 1], log[|log| - 1]);
    }
  }

  /** Neither counter ever goes below zero, and both count what they are named after. */
  lemma CountersAreExact(c: Config, log: seq<Event>, run: seq<State>)
    requires PoolRun(c, log, run)
    ensures var s := run[|log|]; s.threads == Coming(s) + s.asleep + s.woken + s.expired + |s.running|
    ensures var s := run[|log|]; s.idle == s.threads - |s.running| && 0 <= s.idle <= s.threads
    ensures var s := run[|log|]; c.max.Some? ==> s.threads <= Cap(c)
  {
    RunKeeps(c, log, run);
  }

  /** Tasks are taken in the order they were submitted, and each one taken is run once. */
  lemma TasksAreTakenInOrder(c: Config, log: seq<Event>, run: seq<State>)
    requires PoolRun(c, log, run)
    ensures var s := run[|log|]; s.popped + s.queue == s.submitted
    ensures var s := run[|log|]; multiset(s.popped) == s.finished + s.running
  {
    RunKeeps(c, log, run);
  }

  lemma ShutdownStep(c: Config, s: State, e: Event)
    requires s.phase == Shutdown
    ensures Next(c, s, e).phase == Shutdown && Next(c, s, e).popped == s.popped
  {
  }

  /** Once the pool is shutting down nobody takes another task, whatever happens next. */
  lemma {:induction false} ShutdownTakesNothing(c: Config, s: State, more: seq<Event>, run: seq<State>)
    requires s.phase == Shutdown && IsRun(s, Step(c), more, run)
    ensures run[|more|].phase == Shutdown && run[|more|].popped == s.popped
  {
    if more != [] {
      Shorter(s, Step(c), more, run);
      ShutdownTakesNothing(c, s, more[..|more| - 1], run[..|more|]);
      ShutdownStep(c, run[|more| - 1], more[|more| - 1]);
    }
  }
}
