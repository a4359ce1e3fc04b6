/** The thread pool monitor as a step system: one locked region, or one notification or spawn
    issued outside the lock, per step.  Workers are counted by where they stand; a worker
    that runs a task is known by its task. */
module PoolSteps {
  import opened Cells
  import opened Runs

  type Task = nat

  datatype Phase = Active | Drain | Shutdown

  datatype Config = Config(min: nat, max: Option<nat>, timeout: bool)

  datatype State = State(
    // guarded by the mutex
    idle: int, threads: int, panics: nat, queue: seq<Task>, phase: Phase,
    // notifications and spawns still to be issued by whoever left the lock
    oweOne: nat, oweAll: nat, announcing: nat, spawning: nat,
    // workers: not yet in, asleep, woken, timed out, inside a task
    starting: nat, asleep: nat, woken: nat, expired: nat, running: multiset<Task>,
    // history: tasks in the order they came and were taken, those that ended, and how many
    // workers left because they timed out
    submitted: seq<Task>, popped: seq<Task>, finished: multiset<Task>, gaveUp: nat)

  datatype Entry = Fresh | Woken | Expired

  datatype Event =
    | Submit(t: Task)
    | NotifyOne
    | NotifyAll
    | Spawn
    | Enter(at: Entry)
    | Finish(t: Task, panicked: bool)
    | SpuriousWake
    | TimeOut
    | StartDrain(shutdown: bool)
    | NotifyDrain

  function Start(c: Config): State {
    State(c.min, c.min, 0, [], Active, 0, 0, 0, 0, c.min, 0, 0, 0, multiset{}, [], [], multiset{}, 0)
  }

  // Whether `maybe_spawn` starts a thread.
  predicate Grows(c: Config, s: State) {
    && (s.idle == 0 || s.idle * 5 < |s.queue|)
    && (s.threads == 0 || c.max.None? || c.max.value > s.threads)
  }

  /** `maybe_spawn`: the counts go up under the lock, the spawn follows outside it. */
  function MaybeSpawn(c: Config, s: State): State {
    if Grows(c, s) then s.(idle := s.idle + 1, threads := s.threads + 1, announcing := s.announcing + 1) else s
  }

  function Exit(s: State): State { s.(idle := s.idle - 1, threads := s.threads - 1) }

  // A worker takes the first task of the queue.
  function Take(s: State): State
    requires s.queue != []
  {
    var t := s.queue[0];
    s.(queue := s.queue[1..], idle := s.idle - 1, popped := s.popped + [t], running := s.running + multiset{t})
  }

  function Push(s: State, t: Task): State { s.(queue := s.queue + [t], submitted := s.submitted + [t]) }

  /** One turn of the worker's loop, from taking the lock to letting go of it. */
  function Turn(c: Config, s: State): State {
    if s.phase == Shutdown then Exit(s)
    else if s.queue != [] then MaybeSpawn(c, Take(s))
    else if s.phase == Drain then Exit(s)
    else s.(asleep := s.asleep + 1)
  }

  // The worker leaves the place from which it enters the lock.
  function Arrive(s: State, at: Entry): State {
    match at
    case Fresh => s.(starting := if s.starting > 0 then s.starting - 1 else 0)
    case Woken => s.(woken := if s.woken > 0 then s.woken - 1 else 0)
    case Expired => s.(expired := if s.expired > 0 then s.expired - 1 else 0)
  }

  predicate Enters(s: State, at: Entry) {
    match at case Fresh => s.starting > 0 case Woken => s.woken > 0 case Expired => s.expired > 0
  }

  function WakeAll(s: State): State { s.(woken := s.woken + s.asleep, asleep := 0) }

  function Next(c: Config, s: State, e: Event): State {
    match e
    case Submit(t) =>
      var s' := Push(s, t);
      if Grows(c, s') then MaybeSpawn(c, s') else s'.(oweOne := s.oweOne + 1)
    case NotifyOne =>
      if s.oweOne == 0 then s
      else if s.asleep == 0 then s.(oweOne := s.oweOne - 1)
      else s.(oweOne := s.oweOne - 1, asleep := s.asleep - 1, woken := s.woken + 1)
    case NotifyAll =>
      if s.announcing == 0 then s
      else WakeAll(s.(announcing := s.announcing - 1, spawning := s.spawning + 1))
    case Spawn => if s.spawning == 0 then s else s.(spawning := s.spawning - 1, starting := s.starting + 1)
    case Enter(at) =>
      if !Enters(s, at) then s
      else if at == Expired && s.threads > c.min then Exit(Arrive(s, at)).(gaveUp := s.gaveUp + 1)
      else Turn(c, Arrive(s, at))
    case Finish(t, panicked) =>
      if t !in s.running then s
      else
        var s' := s.(running := s.running - multiset{t}, finished := s.finished + multiset{t}, idle := s.idle + 1);
        if panicked then Exit(s'.(panics := s.panics + 1)) else Turn(c, s')
    case SpuriousWake => if s.asleep == 0 then s else s.(asleep := s.asleep - 1, woken := s.woken + 1)
    case TimeOut => if s.asleep == 0 || !c.timeout then s else s.(asleep := s.asleep - 1, expired := s.expired + 1)
    case StartDrain(shutdown) =>
      if s.phase != Active then s
      else s.(phase := if shutdown then Shutdown else Drain, oweAll := s.oweAll + 1)
    case NotifyDrain => if s.oweAll == 0 then s else WakeAll(s.(oweAll := s.oweAll - 1))
  }

  function Step(c: Config): (State, Event) -> State { (s, e) => Next(c, s, e) }

  /** A run of a pool with configuration `c`. */
  ghost predicate PoolRun(c: Config, log: seq<Event>, run: seq<State>) {
    IsRun(Start(c), Step(c), log, run)
  }
}
