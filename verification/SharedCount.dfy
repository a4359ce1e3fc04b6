/** What the borrow count guarantees in every run, with any number of concurrent borrows. */
module SharedCount {
  import opened Cells
  import opened SharedSteps
  import opened Runs

  // --- The three uses of the counter that the source does not get right

  /** `cancel_poll` finds the last borrow in the middle of its notification.  That works only
      if it resets and the waker was called already: then the borrow gets its 2 back, fails
      to settle the count, and gives the 2 back once more. */
  predicate CancelsAtOne(s: State, e: Event) {
    && e.LenderMove? && !e.spurious && s.lender.CancelLoop? && s.lender.seen == 1 && s.count == 1
    && !(s.lender.reset && s.swapping == 1)
  }

  // `drop_lender` is told the wrong thing about the 2 that a poll withdrew.
  predicate Misinformed(s: State, e: Event) {
    e.DropLender? && (s.lender.Pending? || s.lender.Resting?) && e.pending != s.lender.Pending?
  }

  /** `borrow` lends while a poll has withdrawn 2, and too late for that: the last borrow is
      about to settle the count, or has settled it.  (A miss is no last borrow, and lending
      again repairs it.) */
  predicate LendsLate(s: State, e: Event) {
    e.Borrow? && s.lender.Pending? && s.count <= 2 && !s.missed
  }

  predicate Sound(s: State, e: Event) { !CancelsAtOne(s, e) && !Misinformed(s, e) && !LendsLate(s, e) }

  // --- The phase encoding

  // Threads between a `fetch_sub` to 1 and the end of `dec_count_ref`.
  function Notifying(s: State): nat { s.waking + s.swapping }

  // Threads whose 2 is in the count, unless the count is 1: borrowers, and those that a
  // cancelled poll interrupted in `dec_count_ref`.
  function Refs(s: State): nat { s.live + s.swapping + s.retrying }

  // The lender's share is in the count.
  predicate Shares(l: LenderPc) {
    l.Resting? || l.StartLoad? || l.StartStore? || l.StartSub? || (l.TryLoad? && !l.pending) || l.DropSub?
  }

  // A poll has withdrawn 2 and put it back for a moment, to get at the waker.
  predicate Raised(l: LenderPc) {
    l.ResumeClear? || l.ResumeStore? || l.ResumeSub? || l.CancelClear?
  }

  predicate Withdrawn(l: LenderPc) {
    l.Pending? || l.ResumeLoad? || l.ResumeLoop? || (l.TryLoad? && l.pending) || l.TrySwap?
    || l.CancelLoad? || l.CancelLoop? || l.CancelSwap?
  }

  // The lender itself found that the last borrow had gone before it could withdraw.
  predicate Settling(l: LenderPc) { l.StartClear? || l.StartSwap? }

  predicate Counted(s: State) {
    && !s.lender.Panic? && !s.lender.ResumeClearLate? && !s.misused
    && (Shares(s.lender) || Raised(s.lender) ==> s.count == 3 + 2 * Refs(s) && s.waking == 0)
    && (Settling(s.lender) ==> s.count == 1 && Refs(s) == 0 && s.waking == 0)
    && (Withdrawn(s.lender) ==>
        if s.waking > 0 then s.waking == 1 && Refs(s) == 0 && s.count == 1 && !s.missed
        else if Refs(s) == 0 then s.count == if s.missed then 1 else 2
        else s.count == 1 + 2 * Refs(s) || (s.count == 1 && s.swapping == 1 && Refs(s) == 1))
    && (s.missed ==> (Withdrawn(s.lender) || s.lender.DropFree? || s.lender.Gone?) && Refs(s) == 0)
    && (s.lender.Gone? ==> Refs(s) > 0 ==> s.count == 2 * Refs(s))
    && (s.lender.Gone? || s.lender.DropFree? ==> s.waking == 0)
    && (s.lender.DropFree? ==> Refs(s) == 0)
  }

  predicate Freed(s: State) {
    && s.frees + s.freeing == (if s.lender.Gone? && Refs(s) == 0 then 1 else 0)
    && s.lent == s.givenBack + s.waking + Refs(s) + s.freeing
  }

  // What the lender remembers of the count stays true.
  predicate Local(s: State) {
    match s.lender
    case Resting(ready) => ready ==> Refs(s) == 0
    case Pending(ready) => ready ==> Refs(s) + s.waking == 0 && s.count == 2
    case ResumeLoop(_, seen) => Remembers(s, seen)
    case CancelLoop(_, seen) => Remembers(s, seen)
    case TrySwap => s.count == 2
    case CancelSwap => s.count == 2
    case _ => true
  }

  predicate Remembers(s: State, seen: int) {
    && seen != 0
    && (seen == 2 ==> s.count == 2)
    && (seen == 1 ==> s.live + s.retrying == 0 && s.count <= 2)
  }

  predicate WakerHeld(s: State) {
    if Shares(s.lender) then s.lender.StartSub?
    else if Raised(s.lender) then !s.lender.ResumeStore?
    else if Settling(s.lender) then s.lender.StartClear?
    else if Withdrawn(s.lender) then Awaited(s) || s.missed
    else false
  }

  // Somebody will call the waker: a borrower when it is the last, or the last one by now.
  predicate Awaited(s: State) { s.waking > 0 || (Refs(s) > 0 && s.count == 1 + 2 * Refs(s)) }

  predicate WakerCell(s: State) {
    && s.waker == (if WakerHeld(s) then Full(s.latest) else Empty)
    && s.stored == s.called + s.cleared + (if WakerHeld(s) then 1 else 0)
  }

  // A lender whose waker was not called since its poll began is still awaited.
  predicate Heard(s: State) {
    && s.mark <= s.wakes
    && (s.lender == Pending(false) && s.wakes == s.mark ==> Awaited(s))
    && (s.lender == TryLoad(true) && s.wakes == s.mark ==> Awaited(s) || s.count == 2)
  }

  predicate Inv(s: State) { Counted(s) && Freed(s) && Local(s) && WakerCell(s) && Heard(s) }

  // --- Every step keeps it

  // A thread takes its 2 out of the count; `s` is the state without that thread.
  lemma SubTwoKeeps(s: State)
    requires Inv(s.(live := s.live + 1))
    ensures Inv(SubTwo(s))
  {
  }

  lemma RetryKeeps(s: State)
    requires Inv(s) && s.retrying > 0
    ensures Inv(SubTwo(s.(retrying := s.retrying - 1)))
  {
    assert Inv(s.(retrying := s.retrying - 1, live := s.live + 1));
    SubTwoKeeps(s.(retrying := s.retrying - 1));
  }

  lemma GiveBackKeeps(s: State, e: Event)
    requires Inv(s) && (e.Release? || e.Retry?)
    ensures Inv(BorrowStep(s, e))
  {
    if e.Release? && s.live > 0 {
      SubTwoKeeps(s.(live := s.live - 1));
      assert Touch(SubTwo(s.(live := s.live - 1))) == SubTwo(s.(live := s.live - 1));
    } else if e.Retry? && s.retrying > 0 {
      RetryKeeps(s);
      assert Touch(SubTwo(s.(retrying := s.retrying - 1))) == SubTwo(s.(retrying := s.retrying - 1));
    }
  }

  lemma NotifyKeeps(s: State, e: Event)
    requires Inv(s) && (e.WakeLender? || e.SwapCount?)
    ensures Inv(BorrowStep(s, e))
  {
  }

  lemma BorrowKeeps(s: State, e: Event)
    requires Inv(s)
    ensures Inv(BorrowStep(s, e))
  {
    if e.Release? || e.Retry? {
      GiveBackKeeps(s, e);
    } else if e.WakeLender? || e.SwapCount? {
      NotifyKeeps(s, e);
    }
  }

  lemma StartKeeps(s: State, spurious: bool)
    requires Inv(s) && (Settling(s.lender) || s.lender.StartLoad? || s.lender.StartStore? || s.lender.StartSub?)
    ensures Inv(PollStep(s, spurious))
  {
  }

  lemma AnswerKeeps(s: State, spurious: bool)
    requires Inv(s) && s.lender.ResumeLoop? && s.lender.seen in {1, 2}
    ensures Inv(PollStep(s, spurious))
  {
  }

  lemma RaiseKeeps(s: State, spurious: bool)
    requires Inv(s) && s.lender.ResumeLoop? && s.lender.seen !in {1, 2}
    ensures Inv(PollStep(s, spurious))
  {
  }

  lemma LoadKeeps(s: State, spurious: bool)
    requires Inv(s) && s.lender.ResumeLoad?
    ensures Inv(PollStep(s, spurious))
  {
  }

  lemma ReplaceKeeps(s: State, spurious: bool)
    requires Inv(s) && (s.lender.ResumeClear? || s.lender.ResumeStore? || s.lender.ResumeSub?)
    ensures Inv(PollStep(s, spurious))
  {
  }

  lemma PollKeeps(s: State, spurious: bool)
    requires Inv(s) && Polling(s.lender)
    ensures Inv(LenderStep(s, spurious))
  {
    if s.lender.ResumeLoad? {
      LoadKeeps(s, spurious);
    } else if s.lender.ResumeLoop? && s.lender.seen in {1, 2} {
      AnswerKeeps(s, spurious);
    } else if s.lender.ResumeLoop? {
      RaiseKeeps(s, spurious);
    } else if Raised(s.lender) {
      ReplaceKeeps(s, spurious);
    } else {
      StartKeeps(s, spurious);
    }
  }

  lemma CancelLoadKeeps(s: State, spurious: bool)
    requires Inv(s) && s.lender.CancelLoad?
    ensures Inv(LeaveStep(s, spurious))
  {
  }

  lemma CancelLoopKeeps(s: State, spurious: bool)
    requires Inv(s) && Sound(s, LenderMove(spurious)) && s.lender.CancelLoop?
    ensures Inv(LeaveStep(s, spurious))
  {
    if s.lender.seen == 2 {
      SeenTwoKeeps(s, spurious);
    } else if s.count != s.lender.seen || spurious {
      assert Inv(s.(lender := CancelLoop(s.lender.reset, s.count)));
    } else if s.lender.seen == 1 {
      ResetAtOneKeeps(s);
    } else {
      assert Inv(s.(count := s.lender.seen + 2, lender := CancelClear(s.lender.reset)));
    }
  }

  lemma SeenTwoKeeps(s: State, spurious: bool)
    requires Inv(s) && s.lender.CancelLoop? && s.lender.seen == 2
    ensures Inv(LeaveStep(s, spurious))
  {
  }

  lemma ResetAtOneKeeps(s: State)
    requires Inv(s) && s.lender == CancelLoop(true, 1) && s.count == 1 && s.swapping == 1
    ensures Inv(s.(count := 5, lender := Resting(false)))
  {
  }

  lemma CancelKeeps(s: State, spurious: bool)
    requires Inv(s) && Sound(s, LenderMove(spurious)) && (s.lender.CancelLoad? || s.lender.CancelLoop?)
    ensures Inv(LenderStep(s, spurious))
  {
    if s.lender.CancelLoad? { CancelLoadKeeps(s, spurious); } else { CancelLoopKeeps(s, spurious); }
  }

  lemma TryKeeps(s: State, spurious: bool)
    requires Inv(s) && (s.lender.TryLoad? || s.lender.TrySwap?)
    ensures Inv(LeaveStep(s, spurious))
  {
  }

  lemma LeaveKeeps(s: State, spurious: bool)
    requires Inv(s) && !Polling(s.lender) && !s.lender.CancelLoad? && !s.lender.CancelLoop?
    ensures Inv(LenderStep(s, spurious))
  {
    if s.lender.TryLoad? || s.lender.TrySwap? {
      TryKeeps(s, spurious);
    }
  }

  lemma MoveKeeps(s: State, spurious: bool)
    requires Inv(s) && Sound(s, LenderMove(spurious)) && !s.lender.Gone?
    ensures Inv(LenderStep(s, spurious))
  {
    if Polling(s.lender) {
      PollKeeps(s, spurious);
    } else if s.lender.CancelLoad? || s.lender.CancelLoop? {
      CancelKeeps(s, spurious);
    } else {
      LeaveKeeps(s, spurious);
    }
  }

  predicate LenderCall(e: Event) {
    e.Borrow? || e.StartPoll? || e.ResumePoll? || e.TryCollect? || e.Cancel? || e.DropLender?
  }

  lemma LendKeeps(s: State)
    requires Inv(s) && Sound(s, Borrow)
    ensures Inv(Next(s, Borrow))
  {
    if s.lender.Resting? || s.lender.Pending? {
      assert Touch(Lend(s)) == Lend(s);
    }
  }

  lemma CallKeeps(s: State, e: Event)
    requires Inv(s) && Sound(s, e) && LenderCall(e)
    ensures Inv(Next(s, e))
  {
    if e.Borrow? { LendKeeps(s); }
  }

  lemma StepKeeps(s: State, e: Event)
    requires Inv(s) && Sound(s, e)
    ensures Inv(Next(s, e))
  {
    if LenderCall(e) {
      CallKeeps(s, e);
    } else if !e.LenderMove? {
      BorrowKeeps(s, e);
    } else if !s.lender.Gone? {
      assert Touch(s) == s;
      MoveKeeps(s, e.spurious);
    }
  }

  lemma FreshHolds(s: State)
    requires s.count == 3 && s.waker == Empty && s.lender == Resting(false) && !s.misused && !s.missed
    requires s.live == 0 && s.waking == 0 && s.swapping == 0 && s.retrying == 0 && s.freeing == 0
    requires s.frees == 0 && s.stored == 0 && s.called == 0 && s.cleared == 0
    requires s.lent == 0 && s.givenBack == 0 && s.wakes == 0 && s.mark == 0
    ensures Inv(s)
  {
  }

  // A run in which no step is one of the three unsound ones.
  ghost predicate SoundFrom(start: State, log: seq<Event>, run: seq<State>) {
    IsRun(start, Next, log, run) && forall i :: 0 <= i < |log| ==> Sound(run[i], log[i])
  }

  /** Such a run from a fresh lender. */
  ghost predicate SoundRun(log: seq<Event>, run: seq<State>) { SoundFrom(INIT, log, run) }

  lemma {:induction false} RunKeepsFrom(start: State, log: seq<Event>, run: seq<State>)
    requires SoundFrom(start, log, run) && Inv(start)
    ensures Inv(run[|log|])
  {
    if log != [] {
      Shorter(start, Next, log, run);
      RunKeepsFrom(start, log[..|log| - 1], run[..|log|]);
      StepKeeps(run[|log| - 1], log[|log| - 1]);
    }
  }

  lemma RunKeeps(log: seq<Event>, run: seq<State>)
    requires SoundRun(log, run)
    ensures Inv(run[|log|])
  {
    FreshHolds(INIT);
    RunKeepsFrom(INIT, log, run);
  }

  // --- What a step may answer, by who is left

  // Nobody holds a borrow or is in the middle of dropping one.
  predicate Alone(s: State) { Refs(s) + s.waking == 0 }

  // Whether the lender completes now or goes on, in each of its calls.
  predicate Answers(s: State, l: LenderPc) {
    match s.lender
    case StartLoad(k) => l == if Alone(s) then Resting(true) else StartStore(k)
    case StartSub(k) => l == if Alone(s) then StartClear else Pending(false)
    case StartSwap => l == Resting(true)
    case ResumeLoad(k) => l == ResumeLoop(k, s.count) && (s.count == 2 <==> Alone(s) && !s.missed)
    case ResumeLoop(k, seen) =>
      && (l == Pending(true) <==> seen == 2)
      && (seen != 2 && Alone(s) && !s.missed ==> if seen == 1 then l == Pending(false) else l == ResumeLoop(k, 2))
    case TryLoad(false) => l == Resting(Alone(s))
    case TryLoad(true) => l == if Alone(s) && !s.missed then TrySwap else Pending(false)
    case TrySwap => l == Resting(true)
    case CancelLoad(reset) => l == CancelLoop(reset, s.count) && (s.count == 2 <==> Alone(s) && !s.missed)
    case CancelLoop(reset, seen) =>
      && (seen == 2 ==> l == if reset then CancelSwap else DropFree)
      && (seen != 2 && l.CancelLoop? ==> l == CancelLoop(reset, s.count))
    case DropSub => l == if Alone(s) then DropFree else Gone
    case _ => true
  }

  lemma PollAnswers(s: State, spurious: bool)
    requires Inv(s) && Polling(s.lender)
    ensures Answers(s, LenderStep(s, spurious).lender)
  {
  }

  lemma LeaveAnswers(s: State, spurious: bool)
    requires Inv(s) && !Polling(s.lender)
    ensures Answers(s, LenderStep(s, spurious).lender)
  {
  }

  /** Whether a call of the lender completes depends on nothing but who is left: with nobody
      left `start_poll`, `try_collect` and, unless a release was missed, `resume_poll` and
      `try_collect` after a poll go to their completing answer, and dropping the lender frees;
      with somebody left none of them does. */
  lemma AnswersAreExact(log: seq<Event>, run: seq<State>, spurious: bool)
    requires SoundRun(log, run)
    ensures Answers(run[|log|], Next(run[|log|], LenderMove(spurious)).lender)
  {
    RunKeeps(log, run);
    var s := run[|log|];
    if !s.lender.Resting? && !s.lender.Pending? && !s.lender.Gone? {
      assert Touch(s) == s;
      if Polling(s.lender) { PollAnswers(s, spurious); } else { LeaveAnswers(s, spurious); }
    }
  }

  // --- What every such run guarantees

  /** `start_poll`, `resume_poll` and `try_collect` report completion only when no borrow is
      held, no thread that dropped one will touch the allocation again, and every borrow that
      was ever lent has been given back. */
  lemma CompletionIsFinal(log: seq<Event>, run: seq<State>)
    requires SoundRun(log, run)
    ensures var s := run[|log|];
      s.lender in {Resting(true), Pending(true)} ==>
        && s.live == 0 && Notifying(s) + s.retrying + s.freeing == 0 && s.frees == 0
        && s.lent == s.givenBack
  {
    RunKeeps(log, run);
  }

  /** The allocation is freed exactly once, by whoever leaves last, and is not touched
      afterwards: not by a borrower, not by a notifier, not by the lender. */
  lemma FreedOnceByTheLast(log: seq<Event>, run: seq<State>)
    requires SoundRun(log, run)
    ensures var s := run[|log|];
      && !s.misused && s.frees <= 1
      && (s.frees + s.freeing == 1 <==> s.lender.Gone? && s.live + Notifying(s) + s.retrying == 0)
      && (s.frees == 1 ==> s.live + Notifying(s) + s.retrying + s.freeing == 0)
  {
    RunKeeps(log, run);
  }

  /** Every waker stored is called once by a last borrow, cleared once by the lender, or still
      in the cell; the cell is never used in the wrong occupancy and no assertion fails. */
  lemma WakersAreUsedOnce(log: seq<Event>, run: seq<State>)
    requires SoundRun(log, run)
    ensures var s := run[|log|];
      && !s.waker.Broken? && !s.lender.Panic?
      && s.stored == s.called + s.cleared + (if s.waker.Full? then 1 else 0)
      && (s.waker.Full? ==> s.waker.value == s.latest)
      && (s.lender.Gone? || s.lender == Resting(true) ==> s.waker.Empty?)
  {
    RunKeeps(log, run);
  }

  /** A lender that waits and has not missed the last borrow will hear of it: while borrows
      are held its latest waker is in the cell, and afterwards a thread is on its way to
      call that waker, or has called it and is about to settle the count, or has done so. */
  lemma WaitingLenderIsNotified(log: seq<Event>, run: seq<State>)
    requires SoundRun(log, run)
    ensures var s := run[|log|];
      s.lender.Pending? && !s.missed ==>
        || (Refs(s) > 0 && s.count == 1 + 2 * Refs(s) && s.waker == Full(s.latest))
        || (s.waking == 1 && s.waker == Full(s.latest) && s.count == 1)
        || (s.swapping == 1 && s.count == 1)
        || (s.count == 2 && Refs(s) + s.waking == 0)
  {
    RunKeeps(log, run);
  }

  /** Even one that missed it never waits in vain: as long as the waker was not called since
      the poll began, a borrow is held or the last one is about to call that very waker. */
  lemma UncalledLenderIsAwaited(log: seq<Event>, run: seq<State>)
    requires SoundRun(log, run)
    ensures var s := run[|log|];
      s.lender == Pending(false) && s.wakes == s.mark ==> s.live + s.swapping + s.retrying + s.waking > 0
    ensures var s := run[|log|]; s.lender == Pending(false) && s.wakes == s.mark ==> s.waker == Full(s.latest)
  {
    RunKeeps(log, run);
  }
}
