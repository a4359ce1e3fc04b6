/** Where the borrow count falls short of its promises, exactly: which steps do harm, what the
    harm is, and runs that get there. */
module SharedLimits {
  import opened Cells
  import opened SharedSteps
  import opened SharedCount
  import opened Runs

  /** A promise is broken: memory used or freed after it was freed, the cell used in the wrong
      occupancy, the allocation freed with a waker left inside or not freed although nobody
      is left, a resting lender that counts a borrow which nobody holds, or a completion
      reported with somebody still there. */
  predicate Harmed(s: State) {
    || s.misused || s.frees > 1 || s.waker.Broken?
    || (s.frees == 1 && s.waker.Full?)
    || (s.lender.Gone? && s.waking + Refs(s) + s.freeing == 0 && s.frees == 0)
    || (s.lender.Resting? && s.waking + Refs(s) == 0 && s.count != 3)
    || (s.lender in {Resting(true), Pending(true)} && s.waking + Refs(s) + s.freeing > 0)
  }

  lemma InvIsUnharmed(s: State)
    requires Inv(s)
    ensures !Harmed(s)
  {
  }

  // Harm can come, without another unsound step.
  ghost predicate GoesWrong(s: State) {
    exists log: seq<Event>, run: seq<State> :: SoundFrom(s, log, run) && Harmed(run[|log|])
  }

  // A sound run from `start` to `s`.
  datatype Path = Path(log: seq<Event>, run: seq<State>)

  ghost predicate Ends(start: State, p: Path, s: State) {
    SoundFrom(start, p.log, p.run) && p.run[|p.log|] == s
  }

  lemma Then(start: State, p: Path, s: State, e: Event) returns (p': Path)
    requires Ends(start, p, s) && Sound(s, e)
    ensures Ends(start, p', Next(s, e))
  {
    Longer(start, Next, p.log, p.run, e);
    p' := Path(p.log + [e], p.run + [Next(s, e)]);
  }

  lemma WrongFrom(start: State, p: Path, s: State)
    requires Ends(start, p, s) && Harmed(s)
    ensures GoesWrong(start)
  {
    assert SoundFrom(start, p.log, p.run) && Harmed(p.run[|p.log|]);
  }

  lemma WrongNow(s: State)
    requires Harmed(s)
    ensures GoesWrong(s)
  {
    WrongFrom(s, Path([], [s]), s);
  }

  lemma WrongNext(s: State, e: Event)
    requires Sound(s, e) && Harmed(Next(s, e))
    ensures GoesWrong(s)
  {
    var p := Then(s, Path([], [s]), s, e);
    WrongFrom(s, p, Next(s, e));
  }

  lemma WrongLater(s: State, e: Event)
    requires Sound(s, e) && GoesWrong(Next(s, e))
    ensures GoesWrong(s)
  {
    var log: seq<Event>, run: seq<State> :| SoundFrom(Next(s, e), log, run) && Harmed(run[|log|]);
    var log', run' := [e] + log, [s] + run;
    forall i | 0 <= i < |log'| ensures run'[i + 1] == Next(run'[i], log'[i]) && Sound(run'[i], log'[i]) {
      if i > 0 {
        assert log'[i] == log[i - 1] && run'[i] == run[i - 1];
      }
    }
    assert SoundFrom(s, log', run') && Harmed(run'[|log'|]);
  }

  // The lender moves by itself, with no spurious failure.
  function Alone(s: State, n: nat): State
    decreases n
  {
    if n == 0 then s else Alone(Next(s, LenderMove(false)), n - 1)
  }

  // --- `cancel_poll` at count 1

  /** Dropping the lender in the middle of the last borrow's notification frees the
      allocation under that borrow's feet: its very next operation touches freed memory. */
  lemma CancelAtOneFreesTooEarly(s: State)
    requires Inv(s) && !s.missed && s.lender == CancelLoop(false, 1) && s.count == 1
    ensures var s' := Next(Next(s, LenderMove(false)), LenderMove(false));
      s'.frees == 1 && Next(s', if s.waking > 0 then WakeLender else SwapCount).misused
  {
    var s1 := s.(count := 2, lender := DropFree);
    assert Next(s, LenderMove(false)) == s1;
    assert Next(s1, LenderMove(false)) == s1.(frees := 1, lender := Gone);
  }

  /** Cancelling there and polling again stores a waker over one that is about to be taken. */
  lemma CancelAtOneSpoilsTheCell(s: State, k: Waker)
    requires Inv(s) && s.lender == CancelLoop(true, 1) && s.count == 1 && s.waking == 1
    ensures var s1 := Next(Next(s, LenderMove(false)), StartPoll(k));
      Next(Next(s1, LenderMove(false)), LenderMove(false)).waker.Broken?
  {
    var s1 := s.(count := 5, lender := StartLoad(k), mark := s.wakes);
    assert Next(Next(s, LenderMove(false)), StartPoll(k)) == s1;
    assert Next(s1, LenderMove(false)) == s1.(lender := StartStore(k));
  }

  // Dropping: freed too early, or, with the last borrow missed, with the waker inside.
  lemma DropAtOneHarms(s: State)
    requires Inv(s) && s.lender == CancelLoop(false, 1) && s.count == 1
    ensures GoesWrong(Next(s, LenderMove(false)))
  {
    var s1 := s.(count := 2, lender := DropFree);
    assert Next(s, LenderMove(false)) == s1;
    var s2 := s1.(frees := 1, lender := Gone);
    assert Next(s1, LenderMove(false)) == s2;
    if s.missed {
      WrongNow(s2);
    } else {
      CancelAtOneFreesTooEarly(s);
      WrongNext(s2, if s.waking > 0 then WakeLender else SwapCount);
    }
    WrongLater(s1, LenderMove(false));
  }

  // Resetting before the waker was called, or with the last borrow missed.
  lemma ResetAtOneHarms(s: State)
    requires Inv(s) && s.lender == CancelLoop(true, 1) && s.count == 1 && s.swapping != 1
    ensures GoesWrong(Next(s, LenderMove(false)))
  {
    var s1 := s.(count := 5, lender := Resting(false));
    assert Next(s, LenderMove(false)) == s1;
    if s.missed {
      WrongNow(s1);
    } else {
      CancelAtOneSpoilsTheCell(s, 0);
      var s2 := Next(s1, StartPoll(0));
      WrongNext(Next(s2, LenderMove(false)), LenderMove(false));
      WrongLater(s2, LenderMove(false));
      WrongLater(s1, StartPoll(0));
    }
  }

  /** The arm does no harm exactly when it resets and the notifier has called the waker: then
      the notifier gives its 2 back a second time, as the source's comment promises. */
  lemma CancelAtOneHarmsIff(s: State)
    requires Inv(s) && s.lender.CancelLoop? && s.lender.seen == 1 && s.count == 1
    ensures GoesWrong(Next(s, LenderMove(false))) <==> !(s.lender.reset && s.swapping == 1)
  {
    if s.lender.reset && s.swapping == 1 {
      UnharmedAfter(s, LenderMove(false));
    } else if s.lender.reset {
      ResetAtOneHarms(s);
    } else {
      DropAtOneHarms(s);
    }
  }

  lemma UnharmedAfter(s: State, e: Event)
    requires Inv(s) && Sound(s, e)
    ensures !GoesWrong(Next(s, e))
  {
    StepKeeps(s, e);
    forall log: seq<Event>, run: seq<State> | SoundFrom(Next(s, e), log, run) ensures !Harmed(run[|log|]) {
      RunKeepsFrom(Next(s, e), log, run);
      InvIsUnharmed(run[|log|]);
    }
  }

  /** The recovery itself: interrupted there, the notifier fails to settle the count, and its
      second turn leaves it as if the poll had never been. */
  lemma ResetAtOneRecovers(s: State)
    requires Inv(s) && s.lender == CancelLoop(true, 1) && s.count == 1 && s.swapping == 1
    ensures var s' := Next(Next(Next(s, LenderMove(false)), SwapCount), Retry);
      && s'.count == 3 && s'.lender == Resting(false) && Refs(s') + s'.waking == 0
      && s'.waker == Empty && s'.givenBack == s'.lent
  {
    var s1 := s.(count := 5, lender := Resting(false));
    assert Next(s, LenderMove(false)) == s1;
    assert Next(s1, SwapCount) == s1.(swapping := 0, retrying := 1);
  }

  // --- `drop_lender` with the wrong flag

  // A lender that rests is dropped as if a poll had withdrawn its 2: the empty cell is cleared.
  lemma DropRestingHarms(s: State)
    requires Inv(s) && s.lender.Resting?
    ensures GoesWrong(Next(s, DropLender(true)))
  {
    assert Next(s, DropLender(true)) == s.(lender := CancelLoad(false));
    CancelHarms(s.(lender := CancelLoad(false)));
  }

  // Cancelling a poll whose waker was called already, or that never was.
  lemma CancelHarms(s: State)
    requires s.lender == CancelLoad(false) && s.count > 2 && s.waker == Empty
    ensures GoesWrong(s)
  {
    var s1 := Next(s, LenderMove(false));
    assert s1.lender == CancelLoop(false, s.count) && s1.count == s.count && s1.waker == Empty;
    ClearsTheEmptyCell(s1);
    WrongLater(s, LenderMove(false));
  }

  lemma ClearsTheEmptyCell(s: State)
    requires s.lender.CancelLoop? && s.lender.seen == s.count && s.count > 2 && s.waker == Empty
    ensures GoesWrong(s)
  {
    var s1 := Next(s, LenderMove(false));
    assert s1.lender.CancelClear? && s1.waker == Empty;
    WrongNext(s1, LenderMove(false));
    WrongLater(s, LenderMove(false));
  }

  // A reference gives its 2 back to a lender that is gone.
  lemma GiveBackLater(s: State, s': State)
    requires s.lender.Gone? && !s.misused && s.frees == 0 && s.count != 1 && Refs(s) > 0
    requires s' == SubTwo(if s.live > 0 then s.(live := s.live - 1)
                          else if s.retrying > 0 then s.(retrying := s.retrying - 1)
                          else s.(swapping := s.swapping - 1))
    requires GoesWrong(s')
    ensures GoesWrong(s)
  {
    if s.live > 0 {
      assert Next(s, Release) == s';
      WrongLater(s, Release);
    } else if s.retrying > 0 {
      assert Next(s, Retry) == s';
      WrongLater(s, Retry);
    } else {
      InterruptedLater(s, s');
    }
  }

  lemma InterruptedLater(s: State, s': State)
    requires s.lender.Gone? && !s.misused && s.frees == 0 && s.count != 1 && s.retrying == 0 && s.swapping > 0
    requires s' == SubTwo(s.(swapping := s.swapping - 1)) && GoesWrong(s')
    ensures GoesWrong(s)
  {
    var s1 := s.(swapping := s.swapping - 1, retrying := 1);
    assert Next(s, SwapCount) == s1 && Next(s1, Retry) == s';
    WrongLater(s1, Retry);
    WrongLater(s, SwapCount);
  }

  // One reference too many was taken out: the last but one frees the allocation.
  lemma {:induction false} OneTooMany(s: State)
    requires s.lender.Gone? && !s.misused && s.frees == 0 && s.freeing == 0 && s.waking == 0
    requires s.count == 2 * Refs(s) - 2 && Refs(s) > 1
    ensures GoesWrong(s)
    decreases Refs(s)
  {
    var s' := SubTwo(if s.live > 0 then s.(live := s.live - 1)
                     else if s.retrying > 0 then s.(retrying := s.retrying - 1)
                     else s.(swapping := s.swapping - 1));
    if Refs(s) > 2 {
      OneTooMany(s');
    } else {
      var s'' := s'.(freeing := 0, frees := 1, givenBack := s.givenBack + 1);
      assert Next(s', FreeLast) == s'';
      FreedTooEarly(s'');
      WrongLater(s', FreeLast);
    }
    GiveBackLater(s, s');
  }

  lemma FreedTooEarly(s: State)
    requires s.frees == 1 && Refs(s) > 0
    ensures GoesWrong(s)
  {
    WrongNext(s, if s.live > 0 then Release else if s.retrying > 0 then Retry else SwapCount);
  }

  // The count is too low for anybody to find that it was the last.
  lemma NobodyIsLast(s: State)
    requires s.lender.Gone? && !s.misused && s.frees == 0 && s.freeing == 0 && s.count < 0
    requires s.waking + Refs(s) <= 1 && s.live == 0 && s.retrying == 0
    ensures GoesWrong(s)
    decreases s.waking
  {
    if s.waking == 1 {
      var s1 := s.(waking := 0, swapping := 1, waker := s.waker.Take(), called := s.called + 1, wakes := s.wakes + 1);
      assert Next(s, WakeLender) == s1;
      NobodyIsLast(s1);
      WrongLater(s, WakeLender);
    } else if s.swapping == 1 {
      var s1 := SubTwo(s.(swapping := 0));
      WrongNow(s1);
      GiveBackLater(s, s1);
    } else {
      WrongNow(s);
    }
  }

  // A lender that waits is dropped as if it rested: 3 are taken out where 1 is left.
  lemma DropPendingHarms(s: State)
    requires Inv(s) && s.lender.Pending?
    ensures GoesWrong(Next(s, DropLender(false)))
  {
    var s1 := s.(lender := DropSub);
    assert Next(s, DropLender(false)) == s1;
    var s2 := s1.(count := s.count - 3, lender := if s.count == 3 then DropFree else Gone);
    assert Next(s1, LenderMove(false)) == s2;
    if s.count == 3 {
      var s3 := s2.(frees := 1, lender := Gone);
      assert Next(s2, LenderMove(false)) == s3;
      FreedTooEarly(s3);
      WrongLater(s2, LenderMove(false));
    } else if s.count < 3 {
      NobodyIsLast(s2);
    } else {
      OneTooMany(s2);
    }
    WrongLater(s1, LenderMove(false));
  }

  // --- `borrow` after the last borrow

  // One more borrow, for a lender that waits.
  function LentAgain(s: State): State {
    s.(live := s.live + 1, count := s.count + 2, lent := s.lent + 1, lender := Pending(false))
  }

  lemma LendsAgain(s: State)
    requires Inv(s) && s.lender.Pending? && !s.missed
    ensures Next(s, Borrow) == LentAgain(s)
  {
    assert Touch(s) == s;
  }

  lemma Moved(s: State, s': State, n: nat)
    requires !s.misused && s.frees == 0 && (if Polling(s.lender) then PollStep(s, false) == s'
                                            else LeaveStep(s, false) == s')
    requires Polling(s.lender) || s.lender.CancelLoad? || s.lender.CancelLoop? || s.lender.CancelClear?
    ensures Next(s, LenderMove(false)) == s' && Alone(s, n + 1) == Alone(s', n)
  {
    assert Touch(s) == s;
  }

  /** At count 2 nobody is there who would call a waker, and the cell is empty: both the next
      poll and the drop of the lender clear it once more. */
  lemma LendingAtTwoSpoilsTheCell(s: State, k: Waker)
    requires Inv(s) && s.lender == Pending(false) && s.count == 2
    ensures var polled := Alone(Next(Next(s, Borrow), ResumePoll(k)), 3);
      var dropped := Alone(Next(Next(s, Borrow), DropLender(true)), 3);
      polled.waker.Broken? && dropped.waker.Broken?
  {
    LendsAgain(s);
    PollSpoilsTheCell(LentAgain(s), k);
    DropSpoilsTheCell(LentAgain(s));
  }

  lemma PollSpoilsTheCell(t: State, k: Waker)
    requires t.lender == Pending(false) && t.count == 4 && t.waker == Empty && !t.misused && t.frees == 0
    ensures Alone(Next(t, ResumePoll(k)), 3).waker.Broken?
  {
    var p0 := t.(lender := ResumeLoad(k), mark := t.wakes);
    assert Next(t, ResumePoll(k)) == p0;
    var p1 := p0.(lender := ResumeLoop(k, 4));
    var p2 := p1.(lender := ResumeClear(k), count := 6);
    Moved(p0, p1, 2);
    Moved(p1, p2, 1);
    Moved(p2, PollStep(p2, false), 0);
  }

  lemma DropSpoilsTheCell(t: State)
    requires t.lender == Pending(false) && t.count == 4 && t.waker == Empty && !t.misused && t.frees == 0
    ensures Alone(Next(t, DropLender(true)), 3).waker.Broken?
  {
    var d0 := t.(lender := CancelLoad(false));
    assert Next(t, DropLender(true)) == d0;
    var d1 := d0.(lender := CancelLoop(false, 4));
    var d2 := d1.(lender := CancelClear(false), count := 6);
    Moved(d0, d1, 2);
    Moved(d1, d2, 1);
    Moved(d2, LeaveStep(d2, false), 0);
  }

  /** At count 1 the notifier settles the count for the new borrow's release, and a poll
      completes although that release is still to call a waker. */
  lemma LendingAtOneCompletesTooEarly(s: State, k: Waker)
    requires Inv(s) && s.lender == Pending(false) && s.count == 1 && s.swapping == 1
    ensures var t := Next(Next(Next(s, Borrow), Release), SwapCount);
      var s' := Alone(Next(t, ResumePoll(k)), 2);
      s'.lender == Pending(true) && s'.waking == 1 && s'.waker == Empty
  {
    LendsAgain(s);
    var s1 := LentAgain(s);
    var s2 := s1.(live := 0, waking := 1, count := 1);
    assert Next(s1, Release) == s2;
    var s3 := s2.(swapping := 0, count := 2, givenBack := s.givenBack + 1);
    assert Next(s2, SwapCount) == s3;
    var s4 := s3.(lender := ResumeLoad(k), mark := s.wakes);
    assert Next(s3, ResumePoll(k)) == s4;
    var s5 := s4.(lender := ResumeLoop(k, 2));
    Moved(s4, s5, 1);
    Moved(s5, PollStep(s5, false), 0);
  }

  // The lender that lent too late is dropped at once, with the flag of its last poll.
  lemma LentLateDropHarms(s: State, flag: bool)
    requires Inv(s) && LendsLate(s, Borrow) && flag == (s.lender == Pending(false))
    ensures GoesWrong(Next(Next(s, Borrow), DropLender(flag)))
  {
    LendsAgain(s);
    var t := LentAgain(s);
    if flag {
      var d := t.(lender := CancelLoad(false));
      assert Next(t, DropLender(true)) == d;
      if s.waking == 1 {
        var d1 := d.(waking := 0, swapping := 1, waker := Empty, called := s.called + 1, wakes := s.wakes + 1);
        assert Next(d, WakeLender) == d1;
        CancelHarms(d1);
        WrongLater(d, WakeLender);
      } else {
        CancelHarms(d);
      }
    } else {
      var d := t.(lender := DropSub);
      assert Next(t, DropLender(false)) == d;
      var d1 := d.(lender := Gone, count := 1);
      assert Next(d, LenderMove(false)) == d1;
      WrongNext(d1, Release);
      WrongLater(d, LenderMove(false));
    }
  }

  lemma LentLateHarms(s: State)
    requires Inv(s) && LendsLate(s, Borrow)
    ensures GoesWrong(Next(s, Borrow))
  {
    LendsAgain(s);
    var t := LentAgain(s);
    var d := t.(lender := CancelLoad(false));
    assert Next(t, DropLender(true)) == d;
    if s.waking == 1 {
      var d1 := d.(waking := 0, swapping := 1, waker := Empty, called := s.called + 1, wakes := s.wakes + 1);
      assert Next(d, WakeLender) == d1;
      CancelHarms(d1);
      WrongLater(d, WakeLender);
    } else {
      CancelHarms(d);
    }
    WrongLater(t, DropLender(true));
  }

  /** A step from a sound state can lead to harm, with nothing unsound after it, if and only
      if it is one of the three: they are all that the borrow count has to fear. */
  lemma OnlyThoseThree(s: State, e: Event)
    requires Inv(s)
    ensures GoesWrong(Next(s, e)) <==> !Sound(s, e)
  {
    if Sound(s, e) {
      UnharmedAfter(s, e);
    } else if LendsLate(s, e) {
      LentLateHarms(s);
    } else if CancelsAtOne(s, e) {
      CancelAtOneHarmsIff(s);
    } else if s.lender.Resting? {
      DropRestingHarms(s);
    } else {
      DropPendingHarms(s);
    }
  }

  // --- The flag that `Lender` keeps

  /** Every call is made as the lender's flag says. */
  predicate Follows(s: State, e: Event) {
    match e
    case StartPoll(_) => !s.flag
    case ResumePoll(_) => s.flag
    case TryCollect(pending) => pending == s.flag
    case DropLender(pending) => pending == s.flag
    case Cancel => s.flag
    case _ => true
  }

  ghost predicate LenderRun(log: seq<Event>, run: seq<State>) {
    SoundRun(log, run) && forall i :: 0 <= i < |log| ==> Follows(run[i], log[i])
  }

  predicate Flagged(s: State) {
    match s.lender
    case Resting(_) => s.flag == s.abandoned
    case Pending(ready) => s.flag == !ready && !s.abandoned
    case TryLoad(pending) => s.flag == pending && !s.abandoned
    case TrySwap => s.flag && !s.abandoned
    case CancelLoad(reset) => reset ==> s.flag && s.abandoned
    case CancelLoop(reset, _) => reset ==> s.flag && s.abandoned
    case CancelSwap => s.flag && s.abandoned
    case CancelClear(reset) => reset ==> s.flag && s.abandoned
    case _ => Polling(s.lender) ==> !s.abandoned
  }

  lemma PollKeepsFlag(s: State, spurious: bool)
    requires Inv(s) && Flagged(s) && Polling(s.lender)
    ensures Flagged(LenderStep(s, spurious))
  {
  }

  lemma LeaveKeepsFlag(s: State, spurious: bool)
    requires Inv(s) && Flagged(s) && !Polling(s.lender)
    ensures Flagged(LenderStep(s, spurious))
  {
  }

  lemma StepKeepsFlag(s: State, e: Event)
    requires Inv(s) && Flagged(s) && Sound(s, e) && Follows(s, e)
    ensures Flagged(Next(s, e))
  {
    if e.LenderMove? && !s.lender.Gone? {
      assert Touch(s) == s;
      if Polling(s.lender) { PollKeepsFlag(s, e.spurious); } else { LeaveKeepsFlag(s, e.spurious); }
    }
  }

  lemma {:induction false} RunKeepsFlag(log: seq<Event>, run: seq<State>)
    requires LenderRun(log, run)
    ensures Flagged(run[|log|])
  {
    if log != [] {
      Shorter(INIT, Next, log, run);
      RunKeepsFlag(log[..|log| - 1], run[..|log|]);
      RunKeeps(log[..|log| - 1], run[..|log|]);
      StepKeepsFlag(run[|log| - 1], log[|log| - 1]);
    }
  }

  /** In every run of a lender, between calls: the flag differs from the 2 that a poll withdrew
      exactly after a poll that was resumed and completed, and after a pending collection that
      was abandoned. */
  lemma FlagIsWrongIff(log: seq<Event>, run: seq<State>)
    requires LenderRun(log, run)
    ensures var s := run[|log|]; s.lender.Resting? || s.lender.Pending? ==>
      (s.flag != s.lender.Pending? <==> s.lender == Pending(true) || s.abandoned)
  {
    RunKeepsFlag(log, run);
  }

  /** Lending does harm exactly when it comes too late for a poll that is still pending. */
  lemma LendHarmsIff(log: seq<Event>, run: seq<State>)
    requires LenderRun(log, run) && (run[|log|].lender.Resting? || run[|log|].lender.Pending?)
    ensures var s := run[|log|];
      GoesWrong(Next(s, Borrow)) <==> s.lender.Pending? && s.count <= 2 && !s.missed
  {
    RunKeeps(log, run);
    OnlyThoseThree(run[|log|], Borrow);
  }

  // A run of a lender whose last call may have lent too late.
  ghost predicate LenderRunToALend(log: seq<Event>, run: seq<State>) {
    && IsRun(INIT, Next, log, run)
    && (forall i :: 0 <= i < |log| ==> Follows(run[i], log[i]))
    && (forall i :: 0 <= i < |log| ==> Sound(run[i], log[i]) || (i == |log| - 1 && log[i].Borrow?))
  }

  ghost predicate LentLate(log: seq<Event>, run: seq<State>)
    requires |run| == |log| + 1
  {
    log != [] && LendsLate(run[|log| - 1], log[|log| - 1])
  }

  /** Dropping the lender does harm in those two cases, and right after it has lent too late,
      and in no other. */
  lemma DropHarmsIff(log: seq<Event>, run: seq<State>)
    requires LenderRunToALend(log, run) && (run[|log|].lender.Resting? || run[|log|].lender.Pending?)
    ensures var s := run[|log|];
      GoesWrong(Next(s, DropLender(s.flag))) <==> s.lender == Pending(true) || s.abandoned || LentLate(log, run)
  {
    if LentLate(log, run) {
      DropAfterALateLend(log, run);
    } else {
      NoLateLend(log, run);
      DropWithoutALateLend(log, run);
    }
  }

  lemma DropWithoutALateLend(log: seq<Event>, run: seq<State>)
    requires LenderRun(log, run) && (run[|log|].lender.Resting? || run[|log|].lender.Pending?)
    ensures var s := run[|log|];
      GoesWrong(Next(s, DropLender(s.flag))) <==> s.lender == Pending(true) || s.abandoned
  {
    var s := run[|log|];
    FlagIsWrongIff(log, run);
    RunKeeps(log, run);
    OnlyThoseThree(s, DropLender(s.flag));
  }

  lemma NoLateLend(log: seq<Event>, run: seq<State>)
    requires LenderRunToALend(log, run) && !LentLate(log, run)
    ensures LenderRun(log, run)
  {
    forall i | 0 <= i < |log| ensures Sound(run[i], log[i]) {
      if i == |log| - 1 && log[i].Borrow? {
        assert !LendsLate(run[i], log[i]);
      }
    }
  }

  lemma DropAfterALateLend(log: seq<Event>, run: seq<State>)
    requires LenderRunToALend(log, run) && LentLate(log, run)
    ensures GoesWrong(Next(run[|log|], DropLender(run[|log|].flag)))
  {
    var front, before := log[..|log| - 1], run[|log| - 1];
    Shorter(INIT, Next, log, run);
    assert LenderRun(front, run[..|log|]) by {
      assert forall i :: 0 <= i < |front| ==> front[i] == log[i] && run[..|log|][i] == run[i];
    }
    RunKeeps(front, run[..|log|]);
    RunKeepsFlag(front, run[..|log|]);
    assert log[|log| - 1] == Borrow;
    LendsAgain(before);
    LentLateDropHarms(before, before.flag);
  }

  /** In the first case the allocation leaks: nobody is left, and nobody has freed it. */
  lemma CollectedLenderLeaks(s: State)
    requires Inv(s) && s.lender == Pending(true) && !s.flag
    ensures var s' := Next(Next(s, DropLender(s.flag)), LenderMove(false));
      s'.lender.Gone? && Refs(s') + s'.waking == 0 && s'.frees + s'.freeing == 0 && s'.count != 0
  {
  }

  // --- The waker that is replaced too late

  /** Putting 2 back to replace the waker loses the last release if, and only if, it comes
      before the 2 is withdrawn again. */
  lemma MissedIff(s: State)
    requires Inv(s) && s.lender.ResumeSub?
    ensures Next(s, LenderMove(false)).missed <==> Refs(s) == 0
  {
  }

  // The lender waits for a notification that nobody will send.
  predicate Stuck(s: State) {
    && s.missed && s.count == 1
    && s.waking + Refs(s) + s.freeing == 0
    && (s.lender == Pending(false) || s.lender.ResumeLoad? || s.lender == TryLoad(true)
        || (s.lender.ResumeLoop? && s.lender.seen == 1))
  }

  lemma MissedIsStuck(s: State)
    requires Inv(s) && s.lender.ResumeSub? && Refs(s) == 0
    ensures Stuck(Next(s, LenderMove(false)))
  {
  }

  // Polling again or trying to collect does not get it out: no poll completes.
  lemma StuckStays(s: State, e: Event)
    requires Stuck(s) && !e.Cancel? && !e.DropLender? && !e.Borrow?
    ensures Stuck(Next(s, e)) && Next(s, e).lender != Pending(true) && !Next(s, e).lender.Resting?
  {
  }

  /** However the run goes on, short of cancelling, dropping or lending again. */
  lemma {:induction false} StuckForEver(s: State, log: seq<Event>, run: seq<State>)
    requires Stuck(s) && IsRun(s, Next, log, run)
    requires forall e :: e in log ==> !e.Cancel? && !e.DropLender? && !e.Borrow?
    ensures Stuck(run[|log|]) && run[|log|].lender != Pending(true) && !run[|log|].lender.Resting?
  {
    if log != [] {
      Shorter(s, Next, log, run);
      StuckForEver(s, log[..|log| - 1], run[..|log|]);
      StuckStays(run[|log| - 1], log[|log| - 1]);
    }
  }

  /** Lending again repairs it: the new borrow is counted, and its release will call the waker
      that was left in the cell. */
  lemma LendingRepairsTheMiss(s: State)
    requires Inv(s) && Stuck(s) && s.lender == Pending(false)
    ensures var s' := Next(s, Borrow);
      Inv(s') && !s'.missed && s'.count == 3 && s'.waker == Full(s.latest) && Next(s', Release).waking == 1
  {
    StepKeeps(s, Borrow);
  }

  /** Left alone with a borrow outstanding, `resume_poll` replaces its waker for ever
      instead of answering "pending". */
  lemma {:induction false} ResumeSpins(s: State, rounds: nat)
    requires Inv(s) && Refs(s) > 0 && s.lender.ResumeLoop? && s.lender.seen == s.count && s.count > 1
    ensures var s' := Alone(s, 4 * rounds);
      s'.lender == s.lender && s'.count == s.count && Refs(s') == Refs(s) && s'.stored == s.stored + rounds
    decreases rounds
  {
    if rounds > 0 {
      var s4 := OneRound(s);
      assert Alone(s, 4 * rounds) == Alone(s4, 4 * (rounds - 1));
      ResumeSpins(s4, rounds - 1);
    }
  }

  // The waker is cleared and stored again, and the count is what it was.
  lemma OneRound(s: State) returns (s4: State)
    requires Inv(s) && Refs(s) > 0 && s.lender.ResumeLoop? && s.lender.seen == s.count && s.count > 1
    ensures s4 == s.(cleared := s.cleared + 1, stored := s.stored + 1, latest := s.lender.k, waker := Full(s.lender.k))
    ensures Inv(s4) && forall n: nat :: Alone(s, n + 4) == Alone(s4, n)
  {
    var k := s.lender.k;
    var s1 := s.(count := s.count + 2, lender := ResumeClear(k));
    MovesTo(s, s1);
    var s2 := s1.(waker := Empty, cleared := s.cleared + 1, lender := ResumeStore(k));
    MovesTo(s1, s2);
    var s3 := s2.(waker := Full(k), stored := s.stored + 1, latest := k, lender := ResumeSub(k));
    MovesTo(s2, s3);
    s4 := s3.(count := s.count, lender := s.lender);
    MovesTo(s3, s4);
    forall n: nat ensures Alone(s, n + 4) == Alone(s4, n) {
      assert Alone(s, n + 4) == Alone(s1, n + 3) == Alone(s2, n + 2) == Alone(s3, n + 1) == Alone(s4, n);
    }
  }

  lemma MovesTo(s: State, s': State)
    requires Inv(s) && Polling(s.lender) && PollStep(s, false) == s'
    ensures Inv(s') && Next(s, LenderMove(false)) == s'
    ensures forall n: nat {:trigger Alone(s', n)} :: Alone(s, n + 1) == Alone(s', n)
  {
    assert Touch(s) == s;
    StepKeeps(s, LenderMove(false));
  }

  // --- Runs that get there

  // A run of a lender that ends in a given state.
  ghost predicate Leads(p: Path, s: State) {
    LenderRun(p.log, p.run) && p.run[|p.log|] == s
  }

  lemma Goes(p: Path, s: State, e: Event) returns (p': Path)
    requires Leads(p, s) && Sound(s, e) && Follows(s, e)
    ensures Leads(p', Next(s, e))
  {
    Longer(INIT, Next, p.log, p.run, e);
    p' := Path(p.log + [e], p.run + [Next(s, e)]);
  }

  lemma PollMoves(p: Path, s: State, t: State) returns (p': Path, s': State)
    requires Leads(p, s) && Polling(s.lender) && PollStep(s, false) == t
    ensures Leads(p', s') && s' == t
  {
    RunKeeps(p.log, p.run);
    assert Touch(s) == s;
    p' := Goes(p, s, LenderMove(false));
    s' := t;
  }

  lemma LeaveMoves(p: Path, s: State, t: State) returns (p': Path, s': State)
    requires Leads(p, s) && LeaveStep(s, false) == t
    requires s.lender.CancelLoad? || s.lender.CancelClear? || (s.lender.CancelLoop? && s.lender.seen > 1)
    ensures Leads(p', s') && s' == t
  {
    RunKeeps(p.log, p.run);
    assert Touch(s) == s;
    p' := Goes(p, s, LenderMove(false));
    s' := t;
  }

  // A lender that waits for its only borrow to be dropped.
  predicate WaitsForOne(s: State, k: Waker) {
    && s.count == 3 && s.live == 1 && s.lender == Pending(false) && !s.missed
    && s.waker == Full(k) && s.latest == k && s.waking == 0 && s.swapping == 0
    && s.retrying == 0 && s.freeing == 0 && s.frees == 0 && !s.misused && s.flag
  }

  lemma WaitFrom(start: State, k: Waker) returns (p: Path, s: State)
    requires start == INIT && start.count == 3 && start.live == 0 && start.lender == Resting(false)
    requires start.waker == Empty && !start.missed && start.waking == 0 && start.swapping == 0
    requires start.retrying == 0 && start.freeing == 0 && start.frees == 0 && !start.misused && !start.flag
    ensures Leads(p, s) && WaitsForOne(s, k)
  {
    p, s := Path([], [start]), start;
    p := Goes(p, s, Borrow);
    s := s.(count := 5, live := 1, lent := s.lent + 1);
    p := Goes(p, s, StartPoll(k));
    s := s.(lender := StartLoad(k), mark := s.wakes);
    p, s := Waits(p, s);
  }

  lemma Waits(p: Path, s: State) returns (p': Path, s': State)
    requires Leads(p, s) && s.lender.StartLoad? && s.count == 5 && s.waker == Empty
    ensures Leads(p', s') && s' == s.(lender := Pending(false), count := 3, flag := true,
                                      waker := Full(s.lender.k), stored := s.stored + 1, latest := s.lender.k)
  {
    var k := s.lender.k;
    p', s' := PollMoves(p, s, s.(lender := StartStore(k)));
    p', s' := PollMoves(p', s', s'.(lender := StartSub(k), waker := Full(k), stored := s.stored + 1, latest := k));
    p', s' := PollMoves(p', s', s'.(lender := Pending(false), count := 3, flag := true));
  }

  /** A run in which the lender finds the last borrow in the middle of its notification. */
  lemma CancelAtOneHappens(k: Waker) returns (p: Path, s: State)
    ensures Leads(p, s) && !s.missed && s.waking == 1 && s.lender == CancelLoop(false, 1) && s.count == 1
  {
    p, s := WaitFrom(INIT, k);
    p, s := LastReleased(p, s, k);
    p := Goes(p, s, DropLender(true));
    s := s.(lender := CancelLoad(false));
    p, s := LeaveMoves(p, s, s.(lender := CancelLoop(false, 1)));
  }

  lemma LastReleased(p: Path, s: State, k: Waker) returns (p': Path, s': State)
    requires Leads(p, s) && WaitsForOne(s, k)
    ensures Leads(p', s') && s' == s.(live := 0, waking := 1, count := 1)
  {
    p' := Goes(p, s, Release);
    s' := s.(live := 0, waking := 1, count := 1);
  }

  lemma Notified(p: Path, s: State, k: Waker) returns (p': Path, s': State)
    requires Leads(p, s) && WaitsForOne(s, k)
    ensures Leads(p', s') && s' == s.(live := 0, count := 2, waker := Empty, called := s.called + 1,
                                      wakes := s.wakes + 1, givenBack := s.givenBack + 1)
  {
    p', s' := LastReleased(p, s, k);
    p' := Goes(p', s', WakeLender);
    s' := s'.(waking := 0, swapping := 1, waker := Empty, called := s.called + 1, wakes := s.wakes + 1);
    p' := Goes(p', s', SwapCount);
    s' := s'.(swapping := 0, count := 2, givenBack := s.givenBack + 1);
  }

  /** Runs of a lender to a pending poll at count 2, and at count 1 with the waker called: a
      wait that timed out, and a borrow that was released since. */
  lemma LateHappens(k: Waker) returns (p: Path, s: State, q: Path, t: State)
    ensures Leads(p, s) && s.lender == Pending(false) && s.flag && s.count == 2 && LendsLate(s, Borrow)
    ensures Leads(q, t) && t.lender == Pending(false) && t.flag && t.count == 1 && t.swapping == 1
    ensures LendsLate(t, Borrow)
  {
    p, s := WaitFrom(INIT, k);
    q, t := LastReleased(p, s, k);
    q := Goes(q, t, WakeLender);
    t := t.(waking := 0, swapping := 1, waker := Empty, called := t.called + 1, wakes := t.wakes + 1);
    p, s := Notified(p, s, k);
  }

  /** A run in which a resumed poll completes, and the flag is wrong. */
  lemma CollectedHappens(k: Waker) returns (p: Path, s: State)
    ensures Leads(p, s) && s.lender == Pending(true) && !s.flag
  {
    p, s := WaitFrom(INIT, k);
    p, s := Notified(p, s, k);
    p, s := Resumed(p, s, k);
  }

  lemma Resumed(p: Path, s: State, k: Waker) returns (p': Path, s': State)
    requires Leads(p, s) && s.lender == Pending(false) && s.count == 2 && s.flag
    ensures Leads(p', s') && s'.lender == Pending(true) && !s'.flag
  {
    p' := Goes(p, s, ResumePoll(k));
    s' := s.(lender := ResumeLoad(k), mark := s.wakes);
    p', s' := PollMoves(p', s', s'.(lender := ResumeLoop(k, 2)));
    p', s' := PollMoves(p', s', s'.(lender := Pending(true), flag := false));
  }

  /** A run in which a pending collection is abandoned, and the flag is wrong. */
  lemma AbandonedHappens(k: Waker) returns (p: Path, s: State)
    ensures Leads(p, s) && s.lender.Resting? && s.abandoned && s.flag
  {
    p, s := WaitFrom(INIT, k);
    p := Goes(p, s, Cancel);
    s := s.(lender := CancelLoad(true), abandoned := true);
    p, s := TakenBack(p, s);
  }

  lemma TakenBack(p: Path, s: State) returns (p': Path, s': State)
    requires Leads(p, s) && s.lender == CancelLoad(true) && s.count == 3 && s.waker.Full?
    ensures Leads(p', s') && s' == s.(lender := Resting(false), count := 5, waker := Empty, cleared := s.cleared + 1)
  {
    p', s' := LeaveMoves(p, s, s.(lender := CancelLoop(true, 3)));
    p', s' := LeaveMoves(p', s', s'.(lender := CancelClear(true), count := 5));
    p', s' := LeaveMoves(p', s', s'.(lender := Resting(false), waker := Empty, cleared := s.cleared + 1));
  }

  /** A run in which the only borrow is released while 2 is put back, and is missed. */
  lemma MissedHappens(k: Waker) returns (p: Path, s: State)
    ensures Leads(p, s) && Stuck(s)
  {
    p, s := WaitFrom(INIT, k);
    p, s := Replacing(p, s, k);
    p := Goes(p, s, Release);
    s := s.(live := 0, count := 3, givenBack := s.givenBack + 1);
    p, s := PollMoves(p, s, s.(lender := ResumeLoop(k, 1), count := 1, missed := true));
  }

  // The waiting lender is polled again, puts its 2 back, and replaces the waker.
  lemma Replacing(p: Path, s: State, k: Waker) returns (p': Path, s': State)
    requires Leads(p, s) && WaitsForOne(s, k)
    ensures Leads(p', s') && s' == s.(lender := ResumeSub(k), count := 5, mark := s.wakes,
                                      cleared := s.cleared + 1, stored := s.stored + 1)
  {
    p' := Goes(p, s, ResumePoll(k));
    s' := s.(lender := ResumeLoad(k), mark := s.wakes);
    p', s' := PollMoves(p', s', s'.(lender := ResumeLoop(k, 3)));
    p', s' := Swapped(p', s', k);
  }

  lemma Swapped(p: Path, s: State, k: Waker) returns (p': Path, s': State)
    requires Leads(p, s) && s.lender == ResumeLoop(k, 3) && s.count == 3 && s.waker == Full(k) && s.latest == k
    ensures Leads(p', s') && s' == s.(lender := ResumeSub(k), count := 5,
                                      cleared := s.cleared + 1, stored := s.stored + 1)
  {
    p', s' := PollMoves(p, s, s.(lender := ResumeClear(k), count := 5));
    p', s' := PollMoves(p', s', s'.(lender := ResumeStore(k), waker := Empty, cleared := s.cleared + 1));
    p', s' := PollMoves(p', s', s'.(lender := ResumeSub(k), waker := Full(k), stored := s.stored + 1));
  }
}
