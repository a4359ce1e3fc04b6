/** The pool in the form of its source: fields guarded by a mutex, changed in place by the
    submitting threads and by each worker's loop.  Wherever a thread is outside the lock, the
    other threads may have taken any number of steps. */
module PoolObject {
  import opened Cells
  import opened PoolSteps
  import opened PoolRuns
  import opened PoolDrain

  // What a thread has announced and not done yet; nobody else can do it instead.
  datatype Duty = Nothing | ToStart | ToNotify | ToSpawn | ToNotifyOne | ToNotifyDrain

  // A thread outside the lock: its duty, and the task it is about to run or running.
  datatype Place = Place(duty: Duty, task: Option<Task>)

  predicate At(p: Place, s: State) {
    && (p.task.Some? ==> p.task.value in s.running)
    && match p.duty
       case Nothing => true
       case ToStart => s.starting > 0
       case ToNotify => s.announcing > 0
       case ToSpawn => s.spawning > 0
       case ToNotifyOne => s.oweOne > 0
       case ToNotifyDrain => s.oweAll > 0
  }

  // What no step takes back.
  predicate Grew(s: State, s': State) {
    && s.finished <= s'.finished && s.submitted <= s'.submitted && s.panics <= s'.panics
    && (s.phase != Active ==> s'.phase == s.phase)
  }

  // What a thread in place p may rely on while others run.
  predicate Rely(c: Config, p: Place, s: State, s': State) {
    Inv(c, s') && Ordered(s') && At(p, s') && Grew(s, s')
  }

  // An event of some other thread: there is one more in the same place.
  predicate OfOthers(p: Place, s: State, e: Event) {
    match e
    case NotifyOne => p.duty.ToNotifyOne? ==> s.oweOne > 1
    case NotifyAll => p.duty.ToNotify? ==> s.announcing > 1
    case Spawn => p.duty.ToSpawn? ==> s.spawning > 1
    case NotifyDrain => p.duty.ToNotifyDrain? ==> s.oweAll > 1
    case Enter(at) => p.duty.ToStart? && at.Fresh? ==> s.starting > 1
    case Finish(t, _) => p.task == Some(t) ==> s.running[t] > 1
    case _ => true
  }

  // Nothing that was announced and no running task is lost in a turn of the loop.
  lemma TurnKeepsPlace(c: Config, p: Place, s: State)
    requires At(p, s)
    ensures At(p, Turn(c, s))
  {
  }

  lemma OthersKeepPlace(c: Config, p: Place, s: State, e: Event)
    requires At(p, s) && OfOthers(p, s, e)
    ensures At(p, Next(c, s, e))
  {
    match e
    case Enter(at) => if Enters(s, at) { TurnKeepsPlace(c, p, Arrive(s, at)); }
    case Finish(t, panicked) =>
      if t in s.running {
        assert p.task.Some? ==> p.task.value in s.running - multiset{t};
        TurnKeepsPlace(c, p, PoolRuns.Return(s, t, panicked));
      }
    case _ =>
  }

  lemma TurnGrows(c: Config, s: State)
    ensures Grew(s, Turn(c, s))
  {
  }

  lemma FinishGrows(c: Config, s: State, t: Task, panicked: bool)
    requires t in s.running
    ensures Grew(s, Next(c, s, Finish(t, panicked)))
  {
    var s' := PoolRuns.Return(s, t, panicked);
    assert Grew(s, s');
    TurnGrows(c, s');
  }

  lemma HistoryGrows(c: Config, s: State, e: Event)
    ensures Grew(s, Next(c, s, e))
  {
    match e
    case Enter(at) => TurnGrows(c, Arrive(s, at));
    case Finish(t, panicked) => if t in s.running { FinishGrows(c, s, t, panicked); }
    case _ =>
  }

  lemma OthersKeepRely(c: Config, p: Place, s: State, s': State, e: Event)
    requires Rely(c, p, s, s') && OfOthers(p, s', e)
    ensures Rely(c, p, s, Next(c, s', e))
  {
    StepKeeps(c, s', e);
    StepKeepsOrder(c, s', e);
    OthersKeepPlace(c, p, s', e);
    HistoryGrows(c, s', e);
  }

  // Between the push or the pop and the decision of `maybe_spawn`.
  lemma Pushed(c: Config, s: State, t: Task)
    requires Inv(c, s) && Ordered(s)
    ensures Ordered(Push(s, t))
    ensures Inv(c, if Grows(c, Push(s, t)) then PoolSteps.MaybeSpawn(c, Push(s, t))
                   else Push(s, t).(oweOne := s.oweOne + 1))
  {
    SubmitKeeps(c, s, t);
    StepKeepsOrder(c, s, Submit(t));
  }

  lemma Taken(c: Config, s: State)
    requires Held(c, s, 1) && Ordered(s) && s.phase != Shutdown && s.queue != []
    ensures Ordered(Take(s)) && Inv(c, PoolSteps.MaybeSpawn(c, Take(s)))
  {
    TurnKeeps(c, s);
    TurnKeepsOrder(c, s);
  }

  // A worker that gets the lock stands inside; one whose wait has timed out was counted on
  // by nobody.
  lemma Arrives(c: Config, s: State, at: Entry)
    requires Inv(c, s) && Enters(s, at)
    ensures Held(c, Arrive(s, at), 1)
    ensures at.Expired? ==> c.timeout && HandedOff(Arrive(s, at), 0)
  {
  }

  // Why a worker left its loop.
  datatype Leave = Unfinished | ShutDown | DrainedOut | TimedOut | Panicked

  class ThreadPoolInner {
    const c: Config
    var idleCount: int
    var panicCount: nat
    var threadCount: int
    var queue: seq<Task>
    var phase: Phase
    ghost var s: State

    ghost predicate Matches()
      reads this
    {
      && s.idle == idleCount && s.panics == panicCount && s.threads == threadCount
      && s.queue == queue && s.phase == phase
    }

    // Nobody is inside the lock.
    ghost predicate Unlocked()
      reads this
    {
      Matches() && Inv(c, s) && Ordered(s)
    }

    // A worker is inside the lock, counted nowhere else.
    ghost predicate Inside()
      reads this
    {
      Matches() && Held(c, s, 1) && Ordered(s)
    }

    constructor (config: Config)
      ensures c == config && Unlocked() && s == Start(c)
    {
      c := config;
      idleCount, panicCount, threadCount, queue, phase := 0, 0, 0, [], Active;
      s := State(0, 0, 0, [], Active, 0, 0, 0, 0, 0, 0, 0, 0, multiset{}, [], [], multiset{}, 0);
      new;
      for k := 0 to config.min
        invariant c == config && Matches()
        invariant s == State(k, k, 0, [], Active, 0, 0, 0, 0, k, 0, 0, 0, multiset{}, [], [], multiset{}, 0)
      {
        idleCount := idleCount + 1;
        threadCount := threadCount + 1;
        s := s.(idle := idleCount, threads := threadCount, starting := s.starting + 1);
      }
    }

    // Other threads run; a thread in place p knows no more than this.
    method Others(ghost p: Place)
      requires Unlocked() && At(p, s)
      modifies this
      ensures Unlocked() && Rely(c, p, old(s), s)
    {
    }

    // An event outside the lock has happened, and then other threads run.
    method Then(ghost e: Event, ghost p: Place)
      requires Unlocked() && (e.NotifyOne? || e.NotifyAll? || e.Spawn? || e.NotifyDrain?) && At(p, Next(c, s, e))
      modifies this
      ensures Unlocked() && Rely(c, p, old(s), s)
    {
      StepKeeps(c, s, e);
      StepKeepsOrder(c, s, e);
      s := Next(c, s, e);
      Others(p);
    }

    /** Called with the lock held, and gives it up before the notification and the spawn. */
    method MaybeSpawn(ghost task: Option<Task>) returns (grown: bool)
      requires Matches() && (task.Some? ==> task.value in s.running)
      requires Grows(c, s) ==> Inv(c, PoolSteps.MaybeSpawn(c, s)) && Ordered(s)
      modifies this
      ensures grown == old(Grows(c, s))
      ensures !grown ==> Matches() && s == old(s)
      ensures grown ==> Unlocked() && Rely(c, Place(Nothing, task), old(s), s)
    {
      if idleCount == 0 || idleCount * 5 < |queue| {
        if threadCount == 0 || (if c.max.Some? then c.max.value > threadCount else true) {
          idleCount := idleCount + 1;
          threadCount := threadCount + 1;
          s := PoolSteps.MaybeSpawn(c, s);
          Others(Place(ToNotify, task));
          Then(NotifyAll, Place(ToSpawn, task));
          Then(Spawn, Place(Nothing, task));
          return true;
        }
      }
      return false;
    }

    method RunBoxed(task: Task) returns (ghost at: nat)
      requires Unlocked()
      modifies this
      ensures Unlocked() && Rely(c, Place(Nothing, None), old(s), s)
      ensures |old(s.submitted)| <= at < |s.submitted| && s.submitted[at] == task
    {
      Others(Place(Nothing, None));
      Pushed(c, s, task);
      queue := queue + [task];
      at := |s.submitted|;
      s := Push(s, task);
      var grown := MaybeSpawn(None);
      if !grown {
        s := s.(oweOne := s.oweOne + 1);
        Others(Place(ToNotifyOne, None));
        Then(NotifyOne, Place(Nothing, None));
      }
    }

    method StartDrain(shutdown: bool)
      requires Unlocked() && phase == Active
      modifies this
      ensures Unlocked() && phase == if shutdown then Shutdown else Drain
    {
      StepKeeps(c, s, Event.StartDrain(shutdown));
      StepKeepsOrder(c, s, Event.StartDrain(shutdown));
      s := Next(c, s, Event.StartDrain(shutdown));
      phase := if shutdown then Shutdown else Drain;
      Others(Place(ToNotifyDrain, None));
      Then(NotifyDrain, Place(Nothing, None));
    }

    // The worker sleeps on the condition variable; None when nothing has ended its sleep.
    method Dream() returns (how: Option<Entry>)
      requires Unlocked() && s.asleep > 0
      modifies this
      ensures Unlocked() && Rely(c, Place(Nothing, None), old(s), s)
      ensures how == None || (how.value != Fresh && Enters(s, how.value))
    {
      return None;
    }

    // `wait` and `wait_timeout`: the lock is given up, and taken again after the sleep.
    method Wait() returns (woken: bool, out: bool)
      requires Inside() && phase == Active && queue == []
      modifies this
      ensures old(s.finished) <= s.finished
      ensures if woken then Inside() else Unlocked()
      ensures woken && out ==> c.timeout && HandedOff(s, 0)
    {
      TurnKeeps(c, s);
      TurnKeepsOrder(c, s);
      s := Turn(c, s);
      var how := Dream();
      if how.Some? {
        Arrives(c, s, how.value);
        s := Arrive(s, how.value);
        return true, how.value.Expired?;
      }
      return false, false;
    }

    // One task: taken from the queue under the lock, run outside it.
    method RunTask() returns (task: Task, panicked: bool)
      requires Inside() && phase != Shutdown && queue != []
      modifies this
      ensures Inside() && old(s.finished) + multiset{task} <= s.finished
      ensures task == old(queue[0])
      ensures panicked ==> MayLeave(c, s) && panicCount > 0
    {
      Taken(c, s);
      task := queue[0];
      queue := queue[1..];
      idleCount := idleCount - 1;
      s := Take(s);
      var grown := MaybeSpawn(Some(task));
      Others(Place(Nothing, Some(task)));
      panicked := *;
      Return(task, panicked);
    }

    // The lock is taken again after a task.
    method Return(task: Task, panicked: bool)
      requires Unlocked() && task in s.running
      modifies this
      ensures Inside() && s == PoolRuns.Return(old(s), task, panicked)
      ensures panicked ==> MayLeave(c, s)
    {
      ReturnKeeps(c, s, task, panicked);
      idleCount := idleCount + 1;
      if panicked {
        panicCount := panicCount + 1;
      }
      s := PoolRuns.Return(s, task, panicked);
    }

    /** The loop of a worker. */
    method Work(turns: nat) returns (ran: seq<Task>, why: Leave)
      requires Inside()
      modifies this
      ensures multiset(ran) <= s.finished
      ensures why.Unfinished? || (Inside() && MayLeave(c, s))
      ensures match why
              case ShutDown => phase == Shutdown
              case DrainedOut => phase == Drain && queue == []
              case TimedOut => c.timeout && threadCount > c.min
              case Panicked => panicCount > 0
              case Unfinished => true
    {
      ran := [];
      for turn := 0 to turns
        invariant Inside() && multiset(ran) <= s.finished
      {
        if phase == Shutdown {
          return ran, ShutDown;
        }
        if queue != [] {
          var task, panicked := RunTask();
          ran := ran + [task];
          if panicked {
            return ran, Panicked;
          }
        } else if phase == Drain {
          return ran, DrainedOut;
        } else {
          var woken, out := Wait();
          if !woken {
            return ran, Unfinished;
          }
          if out && threadCount > c.min {
            s := s.(gaveUp := s.gaveUp + 1);
            return ran, TimedOut;
          }
        }
      }
      return ran, Unfinished;
    }

    /** A worker from its start to its end.  It leaves from a locked region that it may leave,
        `leaving`, where both counters are taken back, and only then may others run. */
    method RunThread(turns: nat) returns (ran: seq<Task>, why: Leave, ghost leaving: State)
      requires Unlocked() && s.starting > 0
      modifies this
      ensures multiset(ran) <= s.finished
      ensures !why.Unfinished? ==> Held(c, leaving, 1) && MayLeave(c, leaving)
      ensures !why.Unfinished? ==> Unlocked() && Rely(c, Place(Nothing, None), Exit(leaving), s)
      ensures match why
              case ShutDown => leaving.phase == Shutdown
              case DrainedOut => leaving.phase == Drain && leaving.queue == []
              case TimedOut => c.timeout && leaving.threads > c.min
              case Panicked => leaving.panics > 0
              case Unfinished => true
    {
      Arrives(c, s, Fresh);
      s := Arrive(s, Fresh);
      ran, why := Work(turns);
      leaving := s;
      if !why.Unfinished? {
        ExitKeeps(c, s);
        idleCount := idleCount - 1;
        threadCount := threadCount - 1;
        s := Exit(s);
        Others(Place(Nothing, None));
      }
    }

    /** `ThreadPool::drain`: returns only once the last worker has left, and then every task
        that was ever submitted has run, provided that none panicked. */
    method DrainAll(turns: nat) returns (done: bool)
      requires Unlocked() && phase == Active
      modifies this
      ensures Unlocked()
      ensures done && panicCount == 0 && (c.min >= 1 || !c.timeout) ==> Complete(s)
    {
      StartDrain(false);
      for turn := 0 to turns
        invariant Unlocked() && phase == Drain
      {
        if threadCount == 0 {
          if panicCount == 0 && (c.min >= 1 || !c.timeout) {
            EmptyPoolIsComplete(c, s);
          }
          return true;
        }
        Others(Place(Nothing, None));
      }
      return false;
    }
  }
}
