/** The futex parker: the same token on a single word that the kernel compares before it
    puts the thread to sleep.  One parking thread, any number of unparking threads. */
module FutexPark {
  import opened ParkToken
  import opened Runs

  // HELD 2, PARK 4, UNPARK 8
  datatype Word = Word(held: bool, park: bool, unpark: bool)

  /** Where the parking thread stands; `expected` is the word it wants to sleep on. */
  datatype Pc =
    | Idle(last: ParkResult)
    | Load(timed: bool)
    | SkipSwap(seen: Word)
    | Announce(timed: bool, seen: Word)
    | Wait(timed: bool, expected: Word)
    | Asleep(timed: bool, expected: Word)
    | Check(timed: bool, expected: Word, out: bool)
    | Swap(seen: Word, out: bool)
    | Panic

  // `course` follows the call of `park`.
  datatype State = State(word: Word, pc: Pc, waking: nat, first: nat, taken: nat, woke: nat, course: Course)

  datatype Event =
    | Acquire
    | Release
    | CallPark(timed: bool)
    | ParkerMove
    | Expired
    | Spurious
    | CallUnpark
    | UnparkerWakes

  function Take(s: State, word: Word, r: ParkResult): State {
    s.(word := word, pc := Idle(r), taken := if Takes(r) then s.taken + 1 else s.taken)
  }

  /** One operation of the parking thread. */
  function ParkerStep(s: State): State {
    match s.pc
    case Load(timed) => s.(pc := if s.word.unpark then SkipSwap(s.word) else Announce(timed, s.word))
    case SkipSwap(seen) =>
      if s.word == seen then Take(s, seen.(unpark := false), Skipped) else s.(pc := Panic)
    case Announce(timed, seen) =>
      var word := seen.(park := true);
      if s.word == seen then s.(word := word, pc := Wait(timed, word), course := Waited)
      else s.(pc := if s.word.unpark then SkipSwap(s.word) else Panic)
    case Wait(timed, expected) =>
      s.(pc := if s.word == expected then Asleep(timed, expected) else Check(timed, expected, false))
    case Check(timed, expected, out) =>
      s.(pc := if out || s.word.unpark then Swap(s.word, out) else Wait(timed, expected))
    case Swap(seen, out) =>
      Take(s, seen.(park := false, unpark := false), if s.word.unpark then Unparked else TimedOut)
    case _ => s
  }

  function Next(s: State, e: Event): State {
    match e
    case Acquire => if s.pc.Idle? then s.(word := s.word.(held := true)) else s
    case Release => if s.pc.Idle? then s.(word := s.word.(held := false)) else s
    case CallPark(timed) => if s.pc.Idle? then s.(pc := Load(timed), course := Direct) else s
    case ParkerMove => ParkerStep(s)
    case Expired =>
      if (s.pc.Wait? || s.pc.Asleep?) && s.pc.timed then
        s.(pc := Check(true, s.pc.expected, true), course := RanOut)
      else s
    case Spurious => if s.pc.Asleep? then s.(pc := Check(s.pc.timed, s.pc.expected, false)) else s
    case CallUnpark =>
      var found := s.word;
      var s' := s.(word := found.(unpark := true));
      if found.unpark then s'
      else s'.(first := s.first + 1, waking := if found.park then s.waking + 1 else s.waking)
    case UnparkerWakes =>
      if s.waking > 0 then
        var s' := s.(waking := s.waking - 1, woke := s.woke + 1);
        if s.pc.Asleep? then s'.(pc := Check(s.pc.timed, s.pc.expected, false)) else s'
      else s
  }

  const FREE := Word(false, false, false)
  const INIT := State(FREE, Idle(TimedOut), 0, 0, 0, 0, RanOut)

  // --- Invariant

  predicate Announced(pc: Pc) { pc.Wait? || pc.Asleep? || pc.Check? || pc.Swap? }

  predicate Words(s: State) {
    && !s.pc.Panic?
    && (s.word.park <==> Announced(s.pc))
    && (s.pc.SkipSwap? ==> s.pc.seen == s.word && s.word.unpark)
    && (s.pc.Announce? ==> !s.pc.seen.unpark && s.pc.seen == s.word.(unpark := false))
    && (s.pc.Wait? || s.pc.Asleep? || s.pc.Check? ==>
        !s.pc.expected.unpark && s.pc.expected == s.word.(unpark := false))
    && (s.pc.Swap? ==> s.pc.seen.(unpark := s.word.unpark) == s.word && (s.pc.seen.unpark ==> s.word.unpark))
    && (s.pc.Swap? ==> s.pc.out || s.pc.seen.unpark)
  }

  // The course of the call so far, and of a finished call.
  predicate Followed(s: State) {
    match s.pc
    case Idle(r) => Tells(r, s.course)
    case Wait(_, _) => s.course == Waited
    case Asleep(_, _) => s.course == Waited
    case Check(_, _, out) => s.course == if out then RanOut else Waited
    case Swap(_, out) => s.course == if out then RanOut else Waited
    case _ => s.course == Direct
  }

  predicate Inv(s: State) {
    && Words(s) && Followed(s)
    && s.first == s.taken + (if s.word.unpark then 1 else 0)
    && (s.pc.Asleep? && s.word.unpark ==> s.waking > 0)
  }

  lemma StepKeeps(s: State, e: Event)
    requires Inv(s)
    ensures Inv(Next(s, e))
  {
  }

  lemma {:induction false} RunKeeps(log: seq<Event>, run: seq<State>)
    requires IsRun(INIT, Next, log, run)
    ensures Inv(run[|log|])
  {
    if log != [] {
      Shorter(INIT, Next, log, run);
      RunKeeps(log[..|log| - 1], run[..|log|]);
      StepKeeps(run[|log| - 1], log[|log| - 1]);
    }
  }

  // --- What every run guarantees

  /** A thread that sleeps although it was unparked has a futex wake coming, which ends its sleep. */
  lemma NoLostWakeUp(log: seq<Event>, run: seq<State>)
    requires IsRun(INIT, Next, log, run)
    ensures var s := run[|log|];
      s.pc.Asleep? && s.word.unpark ==> s.waking > 0 && Next(s, UnparkerWakes).pc.Check?
  {
    RunKeeps(log, run);
  }

  /** Calls of `unpark` that answer true, and parks that were skipped or woken, differ by the
      token still there. */
  lemma TokensAreConserved(log: seq<Event>, run: seq<State>)
    requires IsRun(INIT, Next, log, run)
    ensures var s := run[|log|]; s.first == s.taken + (if s.word.unpark then 1 else 0)
  {
    RunKeeps(log, run);
  }

  /** The swaps find the word that was loaded, and the "Invalid lock state update" panic is
      never reached. */
  lemma SwapsFindWhatWasLoaded(log: seq<Event>, run: seq<State>)
    requires IsRun(INIT, Next, log, run)
    ensures var s := run[|log|]; !s.pc.Panic? && (s.word.park ==> Announced(s.pc))
  {
    RunKeeps(log, run);
  }

  /** A call answers what happened to it: Skipped if it never waited, Unparked if it did, and
      TimedOut only if its time ran out. */
  lemma ResultsTellTheCourse(log: seq<Event>, run: seq<State>)
    requires IsRun(INIT, Next, log, run) && run[|log|].pc.Idle?
    ensures Tells(run[|log|].pc.last, run[|log|].course)
  {
    RunKeeps(log, run);
  }

  /** A token ends the call in two steps: one found at the start is taken at once, and a thread
      that woke up to it leaves with it, even after its time ran out. */
  lemma TokenEndsThePark(log: seq<Event>, run: seq<State>)
    requires IsRun(INIT, Next, log, run)
    requires var s := run[|log|]; s.word.unpark && (s.pc.Load? || s.pc.Check?)
    ensures var s := run[|log|]; var two := ParkerStep(ParkerStep(s));
      two.pc == Idle(if s.pc.Load? then Skipped else Unparked) && !two.word.unpark
  {
    RunKeeps(log, run);
  }

  /** What a step answers to its caller: an unpark through the count of true answers, a park
      through the result it returns at the swap that decides it. */
  function LabelOf(s: State, e: Event): Label {
    var s' := Next(s, e);
    if e == CallUnpark then Label.Unpark(s'.first > s.first)
    else if e == ParkerMove && (s.pc.SkipSwap? || s.pc.Swap?) && s'.pc.Idle? then Label.Park(s'.pc.last)
    else Quiet
  }

  /** Every answer is one that the token allows: true exactly for the unpark that puts it there,
      Skipped or Unparked exactly when it is taken, TimedOut only without it; and the counts of
      both kinds of answer follow. */
  lemma RefinesToken(log: seq<Event>, run: seq<State>, e: Event)
    requires IsRun(INIT, Next, log, run)
    ensures var s := run[|log|]; Step(s.word.unpark, LabelOf(s, e), Next(s, e).word.unpark)
    ensures var s := run[|log|]; var s' := Next(s, e);
      && s'.first == s.first + (if LabelOf(s, e) == Label.Unpark(true) then 1 else 0)
      && s'.taken == s.taken + (if LabelOf(s, e).Park? && Takes(LabelOf(s, e).result) then 1 else 0)
  {
    RunKeeps(log, run);
  }
}
