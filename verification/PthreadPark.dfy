/** The mutex and condition variable parker: one parking thread, any number of threads that
    unpark it, spurious wake-ups and timeouts. */
module PthreadPark {
  import opened ParkToken
  import opened Runs

  // INIT 1, HELD 2, PARK 4, UNPARK 8
  datatype Word = Word(init: bool, held: bool, park: bool, unpark: bool)

  datatype Owner = Free | Parker | Unparker

  /** Where the parking thread stands; `seen` is the word it loaded. */
  datatype Pc =
    | Idle(last: ParkResult)
    | Load(timed: bool)
    | SkipSwap(seen: Word)
    | Init(timed: bool)
    | Lock(timed: bool)
    | Announce(timed: bool)
    | SkipUnlock(seen: Word)
    | LateSwap(seen: Word)
    | Wait(timed: bool)
    | Asleep(timed: bool)
    | Relock(timed: bool, out: bool)
    | Check(timed: bool, out: bool)
    | Swap(seen: Word, out: bool)
    | Unlock(result: ParkResult)
    | Panic

  /** `locking`, `unlocking` and `signalling` count the unparking threads at each point after
      their `fetch_or`; `first` counts the calls of `unpark` that answer true, `taken` the
      parks that used a token up, and `signalled` the signals sent.  `torn` is set when the
      mutex is re-initialized or used at the wrong time, and `course` follows the call of `park`. */
  datatype State = State(
    word: Word, mutex: Owner, pc: Pc,
    locking: nat, unlocking: nat, signalling: nat,
    first: nat, taken: nat, signalled: nat, torn: bool, course: Course)

  datatype Event =
    | Acquire
    | Release
    | CallPark(timed: bool)
    | ParkerMove
    | Expired
    | Spurious
    | CallUnpark
    | UnparkerLocks
    | UnparkerUnlocks
    | UnparkerSignals

  function Return(s: State, r: ParkResult): State {
    s.(pc := Idle(r))
  }

  // The result is known, and the token used up, at the swap that clears UNPARK.
  function Take(s: State, word: Word, r: ParkResult): State {
    s.(word := word, taken := if Takes(r) then s.taken + 1 else s.taken)
  }

  /** One operation of the parking thread. */
  function ParkerStep(s: State): State {
    match s.pc
    case Load(timed) =>
      s.(pc := if s.word.unpark then SkipSwap(s.word) else if s.word.init then Lock(timed) else Init(timed))
    case SkipSwap(seen) =>
      if s.word == seen then Return(Take(s, seen.(unpark := false), Skipped), Skipped) else s.(pc := Panic)
    case Init(timed) =>
      s.(pc := Lock(timed), torn := s.torn || s.mutex != Free || s.locking + s.unlocking + s.signalling > 0)
    case Lock(timed) => if s.mutex == Free then s.(mutex := Parker, pc := Announce(timed)) else s
    case Announce(timed) =>
      var word := s.word.(init := true, park := true);
      if word.unpark then s.(word := word, pc := SkipUnlock(word))
      else s.(word := word, pc := Wait(timed), course := Waited)
    case SkipUnlock(seen) => s.(mutex := Free, pc := LateSwap(seen))
    case LateSwap(seen) =>
      if s.word == seen then Return(Take(s, seen.(unpark := false), Skipped), Skipped) else s.(pc := Panic)
    case Wait(timed) => s.(mutex := Free, pc := Asleep(timed))
    case Relock(timed, out) => if s.mutex == Free then s.(mutex := Parker, pc := Check(timed, out)) else s
    case Check(timed, out) =>
      s.(pc := if out || s.word.unpark then Swap(s.word, out) else Wait(timed))
    case Swap(seen, out) =>
      var r := if s.word.unpark then Unparked else TimedOut;
      Take(s, seen.(park := false, unpark := false), r).(pc := Unlock(r))
    case Unlock(r) => Return(s.(mutex := Free), r)
    case _ => s
  }

  function Next(s: State, e: Event): State {
    match e
    case Acquire => if s.pc.Idle? then s.(word := s.word.(held := true)) else s
    case Release => if s.pc.Idle? then s.(word := s.word.(held := false)) else s
    case CallPark(timed) => if s.pc.Idle? then s.(pc := Load(timed), course := Direct) else s
    case ParkerMove => ParkerStep(s)
    case Expired =>
      if s.pc == Wait(true) then s.(pc := Check(true, true), course := RanOut)
      else if s.pc == Asleep(true) then s.(pc := Relock(true, true), course := RanOut)
      else s
    case Spurious => if s.pc.Asleep? then s.(pc := Relock(s.pc.timed, false)) else s
    case CallUnpark =>
      var found := s.word;
      var s' := s.(word := found.(unpark := true));
      if found.unpark then s'
      else s'.(first := s.first + 1, locking := if found.park then s.locking + 1 else s.locking)
    case UnparkerLocks =>
      if s.locking > 0 && s.mutex == Free then
        s.(mutex := Unparker, locking := s.locking - 1, unlocking := s.unlocking + 1,
           torn := s.torn || !s.word.init)
      else s
    case UnparkerUnlocks =>
      if s.unlocking > 0 then
        s.(mutex := Free, unlocking := s.unlocking - 1, signalling := s.signalling + 1)
      else s
    case UnparkerSignals =>
      if s.signalling > 0 then
        var s' := s.(signalling := s.signalling - 1, signalled := s.signalled + 1);
        if s.pc.Asleep? then s'.(pc := Relock(s.pc.timed, false)) else s'
      else s
  }

  const FREE := Word(false, false, false, false)
  const INIT := State(FREE, Free, Idle(TimedOut), 0, 0, 0, 0, 0, 0, false, RanOut)

  // --- Invariant

  predicate HoldsMutex(pc: Pc) {
    pc.Announce? || pc.SkipUnlock? || pc.Wait? || pc.Check? || pc.Swap? || pc.Unlock?
  }

  predicate Announced(pc: Pc) {
    pc.SkipUnlock? || pc.LateSwap? || pc.Wait? || pc.Asleep? || pc.Relock? || pc.Check? || pc.Swap?
  }

  predicate Mutex(s: State) {
    && (s.mutex == Parker <==> HoldsMutex(s.pc))
    && s.unlocking == (if s.mutex == Unparker then 1 else 0)
    && (s.word.park || s.locking + s.unlocking + s.signalling > 0 ==> s.word.init)
    && (s.pc.Init? ==> !s.word.init)
    && !s.torn
  }

  predicate Words(s: State) {
    && !s.pc.Panic?
    && (Announced(s.pc) ==> s.word.park)
    && (s.pc.SkipSwap? || s.pc.SkipUnlock? || s.pc.LateSwap? ==> s.pc.seen == s.word && s.word.unpark)
    && (s.pc.Swap? ==> s.pc.seen.(unpark := s.word.unpark) == s.word && (s.pc.seen.unpark ==> s.word.unpark))
    && (s.pc.Swap? ==> s.pc.out || s.pc.seen.unpark)
  }

  predicate Tokens(s: State) {
    s.first == s.taken + (if s.word.unpark then 1 else 0)
  }

  predicate NoLostWake(s: State) {
    && (s.pc.Wait? && s.word.unpark ==> s.locking > 0)
    && (s.pc.Asleep? && s.word.unpark ==> s.locking + s.unlocking + s.signalling > 0)
  }

  // The course of the call so far, and of a finished call.
  predicate Followed(s: State) {
    match s.pc
    case Idle(r) => Tells(r, s.course)
    case Unlock(r) => Tells(r, s.course)
    case Wait(_) => s.course == Waited
    case Asleep(_) => s.course == Waited
    case Relock(_, out) => s.course == if out then RanOut else Waited
    case Check(_, out) => s.course == if out then RanOut else Waited
    case Swap(_, out) => s.course == if out then RanOut else Waited
    case _ => s.course == Direct
  }

  predicate Inv(s: State) { Mutex(s) && Words(s) && Tokens(s) && NoLostWake(s) && Followed(s) }

  predicate Waiting(pc: Pc) { pc.Wait? || pc.Asleep? || pc.Relock? || pc.Check? || pc.Swap? || pc.Unlock? }

  lemma WaiterKeeps(s: State)
    requires Inv(s) && Waiting(s.pc)
    ensures Inv(ParkerStep(s))
  {
  }

  lemma ParkerKeeps(s: State)
    requires Inv(s)
    ensures Inv(ParkerStep(s))
  {
    if Waiting(s.pc) { WaiterKeeps(s); }
  }

  lemma StepKeeps(s: State, e: Event)
    requires Inv(s)
    ensures Inv(Next(s, e))
  {
    if e == ParkerMove { ParkerKeeps(s); }
  }

  lemma {:induction false} RunKeeps(log: seq<Event>, run: seq<State>)
    requires IsRun(INIT, Next, log, run)
    ensures Inv(run[|log|])
  {
    if log != [] {
      Shorter(INIT, Next, log, run);
      RunKeeps(log[..|log| - 1], run[..|log|]);
      StepKeeps(run[|log| - 1], log[|log| - 1]);
    }
  }

  // --- What every run guarantees

  /** A thread that sleeps although it was unparked has an unparker on its way to signal it. */
  lemma NoLostWakeUp(log: seq<Event>, run: seq<State>)
    requires IsRun(INIT, Next, log, run)
    ensures var s := run[|log|];
      s.pc.Asleep? && s.word.unpark ==> s.locking + s.unlocking + s.signalling > 0
  {
    RunKeeps(log, run);
  }

  /** And that unparker, left to itself, wakes it within three steps. */
  lemma UnparkersWakeIt(s: State)
    requires Inv(s) && s.pc.Asleep? && s.word.unpark
    ensures var a := Next(s, UnparkerSignals); var b := Next(Next(s, UnparkerUnlocks), UnparkerSignals);
      var c := Next(Next(Next(s, UnparkerLocks), UnparkerUnlocks), UnparkerSignals);
      a.pc.Relock? || b.pc.Relock? || c.pc.Relock?
  {
  }

  /** Calls of `unpark` that answer true, and parks that were skipped or woken, differ by the
      token still there: none is lost, none is used twice. */
  lemma TokensAreConserved(log: seq<Event>, run: seq<State>)
    requires IsRun(INIT, Next, log, run)
    ensures var s := run[|log|]; s.first == s.taken + (if s.word.unpark then 1 else 0)
  {
    RunKeeps(log, run);
  }

  /** The word a swap replaces is the one that was loaded, no assertion fails, and the mutex
      is initialized before its first use and never while another thread uses it. */
  lemma SwapsFindWhatWasLoaded(log: seq<Event>, run: seq<State>)
    requires IsRun(INIT, Next, log, run)
    ensures var s := run[|log|]; !s.pc.Panic? && !s.torn && s.unlocking <= 1
  {
    RunKeeps(log, run);
  }

  /** A call answers what happened to it: Skipped if it never waited, Unparked if it did, and
      TimedOut only if its time ran out. */
  lemma ResultsTellTheCourse(log: seq<Event>, run: seq<State>)
    requires IsRun(INIT, Next, log, run) && run[|log|].pc.Idle?
    ensures Tells(run[|log|].pc.last, run[|log|].course)
  {
    RunKeeps(log, run);
  }

  /** A token ends the call: one found at the start is taken at once, and a thread that woke up
      to it leaves with it as soon as it has the mutex, even after its time ran out. */
  lemma TokenEndsThePark(log: seq<Event>, run: seq<State>)
    requires IsRun(INIT, Next, log, run)
    requires var s := run[|log|]; s.word.unpark && s.mutex == Free && (s.pc.Load? || s.pc.Relock?)
    ensures var s := run[|log|];
      var two := ParkerStep(ParkerStep(s)); var four := ParkerStep(ParkerStep(two));
      && (s.pc.Load? ==> two.pc == Idle(Skipped) && !two.word.unpark)
      && (s.pc.Relock? ==> four.pc == Idle(Unparked) && !four.word.unpark && four.mutex == Free)
  {
    RunKeeps(log, run);
  }

  /** What a step answers to its caller: an unpark through the count of true answers, a park
      through the result it carries after the swap that decides it. */
  function LabelOf(s: State, e: Event): Label {
    var s' := Next(s, e);
    if e == CallUnpark then Label.Unpark(s'.first > s.first)
    else if e == ParkerMove && (s.pc.SkipSwap? || s.pc.LateSwap?) && s'.pc.Idle? then Label.Park(s'.pc.last)
    else if e == ParkerMove && s.pc.Swap? && s'.pc.Unlock? then Label.Park(s'.pc.result)
    else Quiet
  }

  /** Every answer is one that the token allows: true exactly for the unpark that puts it there,
      Skipped or Unparked exactly when it is taken, TimedOut only without it; and a result that
      was decided is the one that is returned. */
  lemma RefinesToken(log: seq<Event>, run: seq<State>, e: Event)
    requires IsRun(INIT, Next, log, run)
    ensures var s := run[|log|]; Step(s.word.unpark, LabelOf(s, e), Next(s, e).word.unpark)
    ensures var s := run[|log|]; var s' := Next(s, e);
      && s'.first == s.first + (if LabelOf(s, e) == Label.Unpark(true) then 1 else 0)
      && s'.taken == s.taken + (if LabelOf(s, e).Park? && Takes(LabelOf(s, e).result) then 1 else 0)
      && (s.pc.Unlock? ==> s'.pc == s.pc || s'.pc == Idle(s.pc.result))
  {
    RunKeeps(log, run);
    StepAnswers(run[|log|], e);
  }

  lemma StepAnswers(s: State, e: Event)
    requires Inv(s)
    ensures Step(s.word.unpark, LabelOf(s, e), Next(s, e).word.unpark)
    ensures var s' := Next(s, e);
      && s'.first == s.first + (if LabelOf(s, e) == Label.Unpark(true) then 1 else 0)
      && s'.taken == s.taken + (if LabelOf(s, e).Park? && Takes(LabelOf(s, e).result) then 1 else 0)
      && (s.pc.Unlock? ==> s'.pc == s.pc || s'.pc == Idle(s.pc.result))
  {
  }
}
