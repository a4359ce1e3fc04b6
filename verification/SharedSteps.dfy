/** The borrow count of `SharedInner` as a step system.  One counter carries the number of
    borrows and the phase of the lender: 3 + 2n while it holds its share, 1 + 2n while a poll
    has withdrawn 2, 1 while the last borrow notifies it, 2 once it was notified, and 2n
    once it is gone.  Borrows are interchangeable, so the threads that drop them are
    counted at each point of `dec_count_ref`; there may be any number of them. */
module SharedSteps {
  import opened Cells

  type Waker = nat

  /** Where the lender stands; `seen` is the count it works with. */
  datatype LenderPc =
    | Resting(ready: bool)            // its share is in the count
    | Pending(ready: bool)            // a poll has withdrawn 2 from it
    | StartLoad(k: Waker)
    | StartStore(k: Waker)
    | StartSub(k: Waker)
    | StartClear
    | StartSwap
    | ResumeLoad(k: Waker)
    | ResumeLoop(k: Waker, seen: int)
    | ResumeClear(k: Waker)
    | ResumeStore(k: Waker)
    | ResumeSub(k: Waker)
    | ResumeClearLate(k: Waker)
    | TryLoad(pending: bool)
    | TrySwap
    | CancelLoad(reset: bool)
    | CancelLoop(reset: bool, seen: int)
    | CancelSwap
    | CancelClear(reset: bool)
    | DropSub
    | DropFree
    | Gone
    | Panic

  datatype State = State(
    count: int, waker: Maybe<Waker>, lender: LenderPc,
    // borrows that are held, and threads inside `dec_count_ref`, by where they stand
    live: nat, waking: nat, swapping: nat, retrying: nat, freeing: nat,
    // how often the allocation was freed, and whether it was touched or freed afterwards
    frees: nat, misused: bool,
    // wakers stored, called by a last borrow, and cleared by the lender; the last one stored
    stored: nat, called: nat, cleared: nat, latest: Waker,
    // the lender withdrew its 2 when no borrow was left to notice
    missed: bool,
    // borrows ever lent, and those given back by a thread that is done with it
    lent: nat, givenBack: nat,
    // how often the lender's waker was called, and how often before its last poll began
    wakes: nat, mark: nat,
    // what `Lender` remembers of its last poll, and whether it ever abandoned a pending one
    flag: bool, abandoned: bool)

  const INIT := State(3, Empty, Resting(false), 0, 0, 0, 0, 0, 0, false, 0, 0, 0, 0, false,
                      0, 0, 0, 0, false, false)

  datatype Event =
    | Borrow
    | Clone
    | Release
    | WakeLender
    | SwapCount
    | Retry
    | FreeLast
    | StartPoll(k: Waker)
    | ResumePoll(k: Waker)
    | TryCollect(pending: bool)
    | Cancel
    | DropLender(pending: bool)
    | LenderMove(spurious: bool)

  function Touch(s: State): State { s.(misused := s.misused || s.frees > 0) }

  function Store(s: State, k: Waker): State {
    s.(waker := s.waker.Store(k), stored := s.stored + 1, latest := k)
  }

  function Clear(s: State): State {
    s.(waker := s.waker.Take(), cleared := s.cleared + 1)
  }

  // `fetch_sub(2)` in `dec_count_ref`, and the arm it leads to.
  function SubTwo(s: State): State {
    var s' := s.(count := s.count - 2);
    if s'.count == 0 then s'.(freeing := s.freeing + 1)
    else if s'.count == 1 then s'.(waking := s.waking + 1)
    else s'.(givenBack := s.givenBack + 1)
  }

  function Lend(s: State): State { s.(live := s.live + 1, count := s.count + 2, lent := s.lent + 1) }

  /** One operation of a borrowing thread. */
  function BorrowStep(s: State, e: Event): State {
    match e
    case Clone => if s.live > 0 then Touch(Lend(s)) else s
    case Release => if s.live > 0 then Touch(SubTwo(s.(live := s.live - 1))) else s
    case WakeLender =>
      if s.waking > 0 then
        Touch(s.(waking := s.waking - 1, swapping := s.swapping + 1, waker := s.waker.Take(),
                 called := s.called + 1, wakes := s.wakes + 1))
      else s
    case SwapCount =>
      if s.swapping == 0 then s
      else if s.count == 1 then Touch(s.(swapping := s.swapping - 1, count := 2, givenBack := s.givenBack + 1))
      else Touch(s.(swapping := s.swapping - 1, retrying := s.retrying + 1))
    case Retry => if s.retrying > 0 then Touch(SubTwo(s.(retrying := s.retrying - 1))) else s
    case FreeLast =>
      if s.freeing > 0 then
        Touch(s).(freeing := s.freeing - 1, frees := s.frees + 1, givenBack := s.givenBack + 1)
      else s
    case _ => s
  }

  predicate Polling(l: LenderPc) {
    l.StartLoad? || l.StartStore? || l.StartSub? || l.StartClear? || l.StartSwap? || l.ResumeLoad? || l.ResumeLoop?
    || l.ResumeClear? || l.ResumeStore? || l.ResumeSub? || l.ResumeClearLate?
  }

  /** One operation of the lender, wherever it stands. */
  function LenderStep(s: State, spurious: bool): State {
    if Polling(s.lender) then PollStep(s, spurious) else LeaveStep(s, spurious)
  }

  // A poll answers, and `Lender` takes note of whether the answer was Pending.
  function Answer(s: State, l: LenderPc): State { s.(lender := l, flag := l == Pending(false)) }

  /** The operations of `start_poll` and `resume_poll`. */
  function PollStep(s: State, spurious: bool): State
    requires Polling(s.lender)
  {
    match s.lender
    case StartLoad(k) => if s.count == 3 then Answer(s, Resting(true)) else s.(lender := StartStore(k))
    case StartStore(k) => Store(s, k).(lender := StartSub(k))
    case StartSub(k) =>
      var s' := s.(count := s.count - 2);
      if s'.count == 1 then s'.(lender := StartClear) else Answer(s', Pending(false))
    case StartClear => Clear(s).(lender := StartSwap)
    case StartSwap => Answer(s.(count := 3), if s.count == 1 then Resting(true) else Panic)
    case ResumeLoad(k) => s.(lender := ResumeLoop(k, s.count))
    case ResumeLoop(k, seen) =>
      if seen == 2 then Answer(s, Pending(true))
      else if seen == 1 then Answer(s.(wakes := s.wakes + 1), Pending(false))
      else if s.count == seen && !spurious then s.(count := seen + 2, lender := ResumeClear(k))
      else s.(lender := ResumeLoop(k, s.count))
    case ResumeClear(k) => Clear(s).(lender := ResumeStore(k))
    case ResumeStore(k) => Store(s, k).(lender := ResumeSub(k))
    case ResumeSub(k) =>
      s.(count := s.count - 2,
         lender := if s.count - 2 == 2 then ResumeClearLate(k) else ResumeLoop(k, s.count - 2),
         missed := s.missed || s.count - 2 == 1)
    case ResumeClearLate(k) => Clear(s).(lender := ResumeLoop(k, 2))
  }

  /** The operations of `try_collect`, `cancel_poll` and `drop_lender`. */
  function LeaveStep(s: State, spurious: bool): State {
    match s.lender
    case TryLoad(pending) =>
      if pending then s.(lender := if s.count == 2 then TrySwap else Pending(false))
      else if s.count == 3 then Answer(s, Resting(true)) else s.(lender := Resting(false))
    case TrySwap => Answer(s.(count := 3), if s.count == 2 then Resting(true) else Panic)
    case CancelLoad(reset) => s.(lender := CancelLoop(reset, s.count))
    case CancelLoop(reset, seen) =>
      if seen == 2 then s.(lender := if reset then CancelSwap else DropFree)
      else if s.count != seen || spurious then s.(lender := CancelLoop(reset, s.count))
      else if seen == 1 then
        s.(count := if reset then 5 else 2, lender := if reset then Resting(false) else DropFree)
      else s.(count := seen + 2, lender := CancelClear(reset))
    case CancelSwap => s.(count := 3, lender := if s.count == 2 then Resting(false) else Panic)
    case CancelClear(reset) => Clear(s).(lender := if reset then Resting(false) else DropSub)
    case DropSub => s.(count := s.count - 3, lender := if s.count == 3 then DropFree else Gone)
    case DropFree => s.(frees := s.frees + 1, lender := Gone)
    case _ => s
  }

  function Next(s: State, e: Event): State {
    match e
    case Borrow =>
      if s.lender.Resting? then Touch(Lend(s).(lender := Resting(false)))
      else if s.lender.Pending? then Touch(Lend(s).(lender := Pending(false), missed := false))
      else s
    case StartPoll(k) => if s.lender.Resting? then s.(lender := StartLoad(k), mark := s.wakes) else s
    case ResumePoll(k) => if s.lender.Pending? then s.(lender := ResumeLoad(k), mark := s.wakes) else s
    case TryCollect(pending) =>
      if (if pending then s.lender.Pending? else s.lender.Resting?) then s.(lender := TryLoad(pending)) else s
    case Cancel => if s.lender.Pending? then s.(lender := CancelLoad(true), abandoned := true) else s
    case DropLender(pending) =>
      if s.lender.Pending? || s.lender.Resting? then
        s.(lender := if pending then CancelLoad(false) else DropSub)
      else s
    case LenderMove(spurious) =>
      if s.lender.Resting? || s.lender.Pending? || s.lender.Gone? || s.lender.Panic? then s
      else LenderStep(Touch(s), spurious)
    case _ => BorrowStep(s, e)
  }
}
