/** The configurations for which a drain can lose tasks, exactly, with a run for each. */
module PoolLimits {
  import opened PoolSteps
  import opened PoolRuns
  import opened PoolDrain
  import opened Runs

  // A run that ends in a given state.
  datatype Path = Path(log: seq<Event>, run: seq<State>)

  ghost predicate Ends(c: Config, p: Path, s: State) {
    PoolRun(c, p.log, p.run) && p.run[|p.log|] == s
  }

  lemma Then(c: Config, p: Path, s: State, e: Event) returns (p': Path, s': State)
    requires Ends(c, p, s)
    ensures s' == Next(c, s, e) && Ends(c, p', s')
  {
    Longer(Start(c), Step(c), p.log, p.run, e);
    s' := Next(c, s, e);
    p' := Path(p.log + [e], p.run + [s']);
  }

  // A pool without workers; and one whose single worker runs the first task.
  predicate Untouched(s: State) {
    && s.idle == 0 && s.threads == 0 && s.panics == 0 && s.queue == [] && s.phase.Active? && s.oweOne == 0
    && s.announcing == 0 && s.spawning == 0 && s.starting == 0 && s.asleep == 0 && s.woken == 0 && s.expired == 0
    && s.running == multiset{} && s.submitted == [] && s.popped == [] && s.gaveUp == 0
  }

  predicate OneRuns(s: State) {
    && s.idle == 0 && s.threads == 1 && s.panics == 0 && s.queue == [] && s.phase.Active? && s.oweOne == 0
    && s.announcing == 0 && s.spawning == 0 && s.starting == 0 && s.asleep == 0 && s.woken == 0 && s.expired == 0
    && s.running == multiset{0} && s.submitted == [0]
  }

  // The worker that was started takes the task, and may start another worker.
  predicate MayHelp(s: State) {
    OneRuns(s) || (s.idle == 1 && s.threads == 2 && s.announcing == 1
                   && OneRuns(s.(idle := 0, threads := 1, announcing := 0)))
  }

  lemma FirstSubmit(c: Config, p: Path, s: State) returns (p': Path, s': State)
    requires Ends(c, p, s) && Untouched(s)
    ensures Ends(c, p', s')
    ensures s' == s.(idle := 1, threads := 1, queue := [0], submitted := [0], announcing := 1)
  {
    assert s.queue + [0] == [0] && s.submitted + [0] == [0];
    p', s' := Then(c, p, s, Submit(0));
  }

  // What was announced is done.
  lemma SpawnNow(c: Config, p: Path, s: State) returns (p': Path, s': State)
    requires Ends(c, p, s) && s.announcing == 1 && s.spawning == 0 && s.asleep == 0
    ensures Ends(c, p', s') && s' == s.(announcing := 0, starting := s.starting + 1)
  {
    p', s' := Then(c, p, s, NotifyAll);
    p', s' := Then(c, p', s', Spawn);
  }

  lemma FirstEnter(c: Config, p: Path, s: State) returns (p': Path, s': State)
    requires Ends(c, p, s)
    requires s.starting == 1 && s.idle == 1 && s.threads == 1 && s.queue == [0] && s.submitted == [0]
    requires Untouched(s.(idle := 0, threads := 0, queue := [], submitted := [], starting := 0))
    ensures Ends(c, p', s') && MayHelp(s')
  {
    var inside := Arrive(s, Fresh);
    assert inside.queue[1..] == [] && inside.running + multiset{0} == multiset{0};
    assert OneRuns(Take(inside));
    p', s' := Then(c, p, s, Enter(Fresh));
  }

  // A second worker that was started on the way goes to sleep, times out and leaves.
  lemma SecondLeaves(c: Config, p: Path, s: State) returns (p': Path, s': State)
    requires Ends(c, p, s) && s.starting == 1 && s.idle == 1 && s.threads == 2 && c.min == 0 && c.timeout
    requires OneRuns(s.(idle := 0, threads := 1, starting := 0))
    ensures Ends(c, p', s') && OneRuns(s')
  {
    p', s' := Then(c, p, s, Enter(Fresh));
    p', s' := Then(c, p', s', TimeOut);
    p', s' := Then(c, p', s', Enter(Expired));
  }

  lemma Alone(c: Config, start: State) returns (p: Path, s: State)
    requires start == Start(c) && Untouched(start) && c.min == 0 && c.timeout
    ensures Ends(c, p, s) && OneRuns(s)
  {
    p, s := FirstSubmit(c, Path([], [start]), start);
    p, s := SpawnNow(c, p, s);
    p, s := FirstEnter(c, p, s);
    if s.announcing > 0 {
      p, s := SpawnNow(c, p, s);
      p, s := SecondLeaves(c, p, s);
    }
  }

  // The worker comes back, goes to sleep, and its wait times out.
  lemma DozesOff(c: Config, p: Path, s: State) returns (p': Path, s': State)
    requires Ends(c, p, s) && OneRuns(s) && c.timeout
    ensures Ends(c, p', s') && s'.expired == 1 && s'.asleep == 0 && s'.idle == 1 && s'.threads == 1
    ensures s'.queue == [] && s'.submitted == [0] && s'.phase.Active? && s'.oweOne == 0 && s'.panics == 0
  {
    p', s' := Then(c, p, s, Finish(0, false));
    p', s' := Then(c, p', s', TimeOut);
  }

  /** A run that loses the second task, for every such configuration. */
  lemma LeftBehind(c: Config) returns (p: Path, s: State)
    requires c.min == 0 && c.timeout
    ensures Ends(c, p, s)
    ensures s.phase == Drain && s.panics == 0 && s.threads == 0 && s.submitted == [0, 1] && s.queue == [1]
  {
    p, s := Alone(c, Start(c));
    p, s := DozesOff(c, p, s);
    assert s.queue + [1] == [1] && s.submitted + [1] == [0, 1];
    p, s := Then(c, p, s, Submit(1));
    p, s := Then(c, p, s, NotifyOne);
    p, s := Then(c, p, s, StartDrain(false));
    p, s := Then(c, p, s, Enter(Expired));
  }

  // --- Filling the pool with tasks that will panic

  // The workers that do not run a task have not been inside the lock yet.
  predicate Packed(s: State) {
    && s.phase.Active? && s.oweOne == 0 && s.announcing == 0 && s.spawning == 0
    && s.asleep == 0 && s.woken == 0 && s.expired == 0
  }

  // A worker takes the only task; if that leaves nobody idle, the pool grows if it may.
  lemma TakeOne(c: Config, p: Path, s: State) returns (p': Path, s': State)
    requires Ends(c, p, s) && Packed(s) && |s.queue| == 1 && s.starting > 0 && s.idle == s.starting
    ensures Ends(c, p', s') && Packed(s') && s'.queue == [] && |s'.running| == |s.running| + 1
    ensures s'.idle == s'.starting && s'.gaveUp == s.gaveUp
    ensures s'.starting == s.starting - 1 ||
      (s.starting == 1 && s'.starting == 1 && s'.threads == s.threads + 1)
    ensures s'.starting == 0 ==> c.max.Some? && s'.threads >= c.max.value
  {
    var t := s.queue[0];
    assert |s.running + multiset{t}| == |s.running| + 1;
    RunKeeps(c, p.log, p.run);
    p', s' := Then(c, p, s, Enter(Fresh));
    if s'.announcing > 0 {
      p', s' := SpawnNow(c, p', s');
    }
  }

  // A task for a worker that is there already.
  lemma GiveOne(c: Config, p: Path, s: State) returns (p': Path, s': State)
    requires Ends(c, p, s) && Packed(s) && s.queue == [] && s.starting > 0 && s.idle == s.starting
    ensures Ends(c, p', s') && Packed(s') && |s'.queue| == 1
    ensures s'.starting == s.starting && s'.idle == s.idle && s'.running == s.running && s'.threads == s.threads
  {
    p', s' := Then(c, p, s, Submit(0));
    p', s' := Then(c, p', s', NotifyOne);
  }

  // Under a cap: until every worker there can be runs a task.
  lemma {:induction false} FillUp(c: Config, p: Path, s: State) returns (p': Path, s': State)
    requires Ends(c, p, s) && Packed(s) && s.queue == [] && s.idle == s.starting && c.max.Some?
    requires |s.running| > 0 || s.starting > 0
    requires s.starting == 0 ==> s.threads >= c.max.value
    ensures Ends(c, p', s') && Packed(s') && s'.queue == [] && s'.starting == 0 && s'.idle == 0
    ensures |s'.running| > 0 && s'.threads >= c.max.value
    decreases Cap(c) - |s.running|
  {
    RunKeeps(c, p.log, p.run);
    p', s' := p, s;
    if s.starting > 0 {
      p', s' := GiveOne(c, p, s);
      p', s' := TakeOne(c, p', s');
      p', s' := FillUp(c, p', s');
    }
  }

  // Without a cap: until as many workers as the minimum run tasks, and one more is starting.
  lemma {:induction false} FillTo(c: Config, p: Path, s: State) returns (p': Path, s': State)
    requires Ends(c, p, s) && Packed(s) && s.queue == [] && s.idle == s.starting && c.max.None?
    requires if |s.running| < c.min then s.threads == c.min else s.starting == 1
    requires |s.running| <= c.min
    ensures Ends(c, p', s') && Packed(s') && s'.queue == [] && s'.starting == 1 && s'.idle == 1
    ensures |s'.running| == c.min
    decreases c.min - |s.running|
  {
    RunKeeps(c, p.log, p.run);
    p', s' := p, s;
    if |s.running| < c.min {
      p', s' := GiveOne(c, p, s);
      p', s' := TakeOne(c, p', s');
      RunKeeps(c, p'.log, p'.run);
      p', s' := FillTo(c, p', s');
    }
  }

  // Every worker's task panics, and the queue stays as it is.
  lemma {:induction false} PanicAll(c: Config, p: Path, s: State) returns (p': Path, s': State)
    requires Ends(c, p, s) && Packed(s) && s.idle == 0
    ensures Ends(c, p', s') && s'.phase.Active? && s'.threads == 0 && s'.queue == s.queue
    decreases |s.running|
  {
    RunKeeps(c, p.log, p.run);
    p', s' := p, s;
    if |s.running| > 0 {
      var t :| t in s.running;
      assert |s.running - multiset{t}| == |s.running| - 1;
      p', s' := Then(c, p, s, Finish(t, true));
      p', s' := PanicAll(c, p', s');
    }
  }

  // Nobody is left, and the drain begins.
  lemma TooLate(c: Config, p: Path, s: State) returns (p': Path, s': State)
    requires Ends(c, p, s) && Packed(s) && s.idle == 0 && s.queue != []
    ensures Ends(c, p', s') && s'.phase == Drain && s'.threads == 0 && s'.queue != []
  {
    p', s' := PanicAll(c, p, s);
    p', s' := Then(c, p', s', StartDrain(false));
  }

  lemma StartPacked(c: Config, start: State) returns (p: Path, s: State)
    requires start == Start(c) && start.starting == c.min && start.idle == c.min && start.threads == c.min
    requires Packed(start) && start.queue == [] && start.running == multiset{}
    requires c.min == 0 ==> Untouched(start)
    ensures Ends(c, p, s) && Packed(s) && s.queue == [] && s.idle == s.starting
    ensures |s.running| + s.starting > 0 && (s.starting == 0 ==> c.max.Some? && s.threads >= c.max.value)
    ensures c.min > 0 ==> s == start
  {
    p, s := Path([], [start]), start;
    if c.min == 0 {
      p, s := FirstSubmit(c, p, s);
      p, s := SpawnNow(c, p, s);
      p, s := TakeOne(c, p, s);
    }
  }

  /** Under any cap: every worker there can be runs a task, one more is queued, and they panic. */
  lemma PanicsUnderACap(c: Config) returns (p: Path, s: State)
    requires c.max.Some?
    ensures Ends(c, p, s) && s.phase == Drain && s.threads == 0 && s.queue != []
  {
    p, s := StartPacked(c, Start(c));
    p, s := FillUp(c, p, s);
    RunKeeps(c, p.log, p.run);
    p, s := Then(c, p, s, Submit(1));
    p, s := Then(c, p, s, NotifyOne);
    p, s := TooLate(c, p, s);
  }

  /** With a timeout and a minimum: the spare worker times out, a task is left to it, and the
      others panic. */
  lemma PanicsAfterATimeout(c: Config) returns (p: Path, s: State)
    requires c.max.None? && c.timeout && c.min > 0
    ensures Ends(c, p, s) && s.phase == Drain && s.threads == 0 && s.queue != []
  {
    p, s := StartPacked(c, Start(c));
    p, s := FillTo(c, p, s);
    RunKeeps(c, p.log, p.run);
    p, s := SpareLeaves(c, p, s);
    p, s := TooLate(c, p, s);
  }

  lemma SpareLeaves(c: Config, p: Path, s: State) returns (p': Path, s': State)
    requires Ends(c, p, s) && Packed(s) && s.queue == [] && s.starting == 1 && s.idle == 1
    requires c.timeout && s.threads > c.min
    ensures Ends(c, p', s') && Packed(s') && s'.idle == 0 && s'.queue != []
  {
    p', s' := Then(c, p, s, Enter(Fresh));
    p', s' := Then(c, p', s', TimeOut);
    p', s' := Then(c, p', s', Submit(1));
    p', s' := Then(c, p', s', NotifyOne);
    p', s' := Then(c, p', s', Enter(Expired));
  }

  // --- The exact conditions

  /** Drain completeness.  Without a minimum, a worker that times out leaves tasks behind. */
  lemma LosesNothingIff(c: Config)
    ensures LosesNothing(c) <==> (c.min >= 1 || !c.timeout)
  {
    if c.min >= 1 || !c.timeout {
      forall log: seq<Event>, run: seq<State> | PoolRun(c, log, run)
        ensures var s := run[|log|]; s.phase == Drain && s.panics == 0 && s.threads == 0 ==> Complete(s)
      {
        RunKeeps(c, log, run);
        var s := run[|log|];
        if s.phase == Drain && s.panics == 0 && s.threads == 0 {
          EmptyPoolIsComplete(c, s);
        }
      }
    } else {
      var p, s := LeftBehind(c);
      assert PoolRun(c, p.log, p.run) && !Complete(s);
    }
  }

  /** The same with tasks that may panic: they take tasks with them in every configuration
      that has a cap or a timeout, and in no other. */
  lemma LosesNothingEvenIfTasksPanicIff(c: Config)
    ensures LosesNothingEvenIfTasksPanic(c) <==> c.max.None? && !c.timeout
  {
    if c.max.None? && !c.timeout {
      forall log: seq<Event>, run: seq<State> | PoolRun(c, log, run)
        ensures var s := run[|log|]; s.phase == Drain && s.threads == 0 ==> Complete(s)
      {
        RunKeeps(c, log, run);
        var s := run[|log|];
        if s.phase == Drain && s.threads == 0 {
          EmptyPoolIsComplete(c, s);
        }
      }
    } else {
      var p, s;
      if c.max.Some? {
        p, s := PanicsUnderACap(c);
      } else if c.min > 0 {
        p, s := PanicsAfterATimeout(c);
      } else {
        p, s := LeftBehind(c);
      }
      assert PoolRun(c, p.log, p.run) && !Complete(s);
    }
  }
}
