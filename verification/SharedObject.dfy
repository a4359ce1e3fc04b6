/** `SharedInner` in the form of its source: a counter and a cell changed in place.  Every
    operation is a step of the step system, and between any two operations of a call the
    borrowing threads may have taken any number of steps of their own.  The waker is that of
    the lender's thread: calling it unparks the thread. */
module SharedObject {
  import opened Cells
  import opened SharedSteps
  import opened SharedCount

  predicate OfBorrower(e: Event) {
    e.Clone? || e.Release? || e.WakeLender? || e.SwapCount? || e.Retry? || e.FreeLast?
  }

  // What no step takes back.
  predicate Grew(s: State, s': State) {
    s.lent <= s'.lent && s.givenBack <= s'.givenBack && s.wakes <= s'.wakes && s.frees <= s'.frees
  }

  /** All that a lender in the middle of a call may rely on while borrowing threads run. */
  predicate Rely(s: State, s': State) {
    && Inv(s') && s'.lender == s.lender && s'.latest == s.latest && s'.missed == s.missed && s'.mark == s.mark
    && (s.live == 0 ==> s'.live == 0) && Grew(s, s')
    && (Alone(s) ==> Alone(s'))
  }

  // No operation of a borrowing thread moves the lender, or makes a borrow out of none.
  predicate LeavesLender(s: State, s': State) {
    && s'.lender == s.lender && s'.latest == s.latest && s'.missed == s.missed && s'.mark == s.mark
    && (s.live == 0 ==> s'.live == 0) && Grew(s, s')
    && (Alone(s) ==> Alone(s'))
  }

  lemma SubTwoLeavesLender(s: State)
    ensures LeavesLender(s.(live := s.live + 1), SubTwo(s)) && LeavesLender(s.(retrying := s.retrying + 1), SubTwo(s))
  {
  }

  lemma NotifierLeavesLender(s: State, e: Event)
    requires e.WakeLender? || e.SwapCount?
    ensures LeavesLender(s, BorrowStep(s, e))
  {
  }

  lemma GiverLeavesLender(s: State, e: Event)
    requires e.Release? || e.Retry?
    ensures LeavesLender(s, BorrowStep(s, e))
  {
    if e.Release? && s.live > 0 {
      SubTwoLeavesLender(s.(live := s.live - 1));
    } else if e.Retry? && s.retrying > 0 {
      SubTwoLeavesLender(s.(retrying := s.retrying - 1));
    }
  }

  lemma HolderLeavesLender(s: State, e: Event)
    requires e.Clone? || e.FreeLast?
    ensures LeavesLender(s, BorrowStep(s, e))
  {
  }

  lemma BorrowerLeavesLender(s: State, e: Event)
    requires OfBorrower(e)
    ensures LeavesLender(s, BorrowStep(s, e))
  {
    if e.Release? || e.Retry? {
      GiverLeavesLender(s, e);
    } else if e.WakeLender? || e.SwapCount? {
      NotifierLeavesLender(s, e);
    } else {
      HolderLeavesLender(s, e);
    }
  }

  lemma BorrowersKeepRely(s: State, s': State, e: Event)
    requires Rely(s, s') && OfBorrower(e)
    ensures Rely(s, Next(s', e))
  {
    StepKeeps(s', e);
    BorrowerLeavesLender(s', e);
    assert Next(s', e) == BorrowStep(s', e);
  }

  // No call of the lender is in progress.
  predicate AtHome(l: LenderPc) { l.Resting? || l.Pending? || l.Gone? || l.Panic? }

  // What a poll answered; `Unfinished` when its turns ran out before it did.
  datatype Poll = Ready | NotReady | Unfinished

  // How a cancellation ended; `AtOne` when it met the last borrow in the middle of its notification.
  datatype Cancelled = Collected | Withdrew | AtOne

  // How a blocking collection stands: done, its thread asleep, or its turns used up.
  datatype Wait = Done | Asleep | Busy

  // Where a thread stands that holds a borrow or is in the middle of dropping it.
  datatype Place = Holding | CallingWaker | SettlingCount | TryingAgain | FreeingIt

  function Places(p: Place, s: State): nat {
    match p
    case Holding => s.live
    case CallingWaker => s.waking
    case SettlingCount => s.swapping
    case TryingAgain => s.retrying
    case FreeingIt => s.freeing
  }

  predicate At(p: Place, s: State) { Places(p, s) > 0 }

  // An event of another thread than the one in place p.
  predicate OfAnother(p: Place, s: State, e: Event) {
    match e
    case Release => p.Holding? ==> s.live > 1
    case WakeLender => p.CallingWaker? ==> s.waking > 1
    case SwapCount => p.SettlingCount? ==> s.swapping > 1
    case Retry => p.TryingAgain? ==> s.retrying > 1
    case FreeLast => p.FreeingIt? ==> s.freeing > 1
    case _ => true
  }

  // No operation of the lender moves a borrowing thread.
  predicate LeavesBorrowers(s: State, s': State) {
    && s'.live == s.live && s'.waking == s.waking && s'.swapping == s.swapping
    && s'.retrying == s.retrying && s'.freeing == s.freeing && Grew(s, s')
  }

  lemma ResumeLeavesBorrowers(s: State, spurious: bool)
    requires s.lender.ResumeLoop? || s.lender.ResumeSub?
    ensures LeavesBorrowers(s, PollStep(s, spurious))
  {
  }

  lemma PollLeavesBorrowers(s: State, spurious: bool)
    requires Polling(s.lender)
    ensures LeavesBorrowers(s, PollStep(s, spurious))
  {
    if s.lender.ResumeLoop? || s.lender.ResumeSub? { ResumeLeavesBorrowers(s, spurious); }
  }

  lemma CancelLeavesBorrowers(s: State, spurious: bool)
    requires s.lender.CancelLoad? || s.lender.CancelLoop?
    ensures LeavesBorrowers(s, LeaveStep(s, spurious))
  {
  }

  lemma TryLeavesBorrowers(s: State, spurious: bool)
    requires s.lender.TryLoad? || s.lender.TrySwap?
    ensures LeavesBorrowers(s, LeaveStep(s, spurious))
  {
  }

  lemma LeaveLeavesBorrowers(s: State, spurious: bool)
    ensures LeavesBorrowers(s, LeaveStep(s, spurious))
  {
    if s.lender.CancelLoad? || s.lender.CancelLoop? {
      CancelLeavesBorrowers(s, spurious);
    } else if s.lender.TryLoad? || s.lender.TrySwap? {
      TryLeavesBorrowers(s, spurious);
    }
  }

  lemma BorrowerKeepsPlace(p: Place, s: State, e: Event)
    requires At(p, s) && OfAnother(p, s, e)
    ensures At(p, BorrowStep(s, e))
  {
  }

  lemma OthersKeepPlace(p: Place, s: State, e: Event)
    requires Inv(s) && At(p, s) && OfAnother(p, s, e) && Sound(s, e)
    ensures Inv(Next(s, e)) && At(p, Next(s, e)) && Grew(s, Next(s, e))
  {
    StepKeeps(s, e);
    if OfBorrower(e) {
      BorrowerKeepsPlace(p, s, e);
      BorrowerLeavesLender(s, e);
    } else if e.LenderMove? {
      if Polling(s.lender) {
        PollLeavesBorrowers(Touch(s), e.spurious);
      } else {
        LeaveLeavesBorrowers(Touch(s), e.spurious);
      }
    }
  }

  class SharedInner {
    var count: int
    var waker: Maybe<Waker>
    // The token of the lender's thread, and how many wake-ups it has heard.
    var token: bool
    ghost var heard: nat
    ghost var s: State
    // How many more steps of borrowing threads and spurious failures are to come.
    var fuel: nat

    ghost predicate Valid()
      reads this
    {
      && s.count == count && s.waker == waker && Inv(s)
      && heard <= s.wakes && (s.wakes > heard ==> token)
    }

    // Borrowing threads run; the lender knows no more than this contract.
    method Borrowers()
      requires Valid()
      modifies this
      ensures Valid() && Rely(old(s), s) && heard == old(heard) && (old(token) ==> token)
      ensures fuel <= old(fuel) && (fuel == old(fuel) ==> s == old(s))
    {
    }

    // The lender's next operation has just happened, and then borrowing threads run.
    method Then(ghost spurious: bool := false)
      requires Inv(s) && Sound(s, LenderMove(spurious)) && !AtHome(s.lender)
      requires var s' := LenderStep(s, spurious); s'.count == count && s'.waker == waker
      requires heard <= s.wakes && (LenderStep(s, spurious).wakes > heard ==> token)
      modifies this
      ensures Valid() && Rely(LenderStep(old(s), spurious), s) && heard == old(heard)
      ensures fuel <= old(fuel) && (fuel == old(fuel) ==> s == LenderStep(old(s), spurious))
    {
      StepKeeps(s, LenderMove(spurious));
      LenderIsUntouched(s, spurious);
      s := Next(s, LenderMove(spurious));
      Borrowers();
    }

    lemma LenderIsUntouched(s: State, spurious: bool)
      requires Inv(s) && !AtHome(s.lender)
      ensures Next(s, LenderMove(spurious)) == LenderStep(s, spurious)
      ensures s.wakes <= LenderStep(s, spurious).wakes
    {
      assert Touch(s) == s;
    }

    // The lender begins a call, and then borrowing threads run.
    method Begin(ghost e: Event)
      requires Valid() && Sound(s, e) && AtHome(s.lender) && LenderCall(e) && !e.Borrow?
      modifies this
      ensures Valid() && Rely(Next(old(s), e), s) && heard == old(heard)
    {
      StepKeeps(s, e);
      s := Next(s, e);
      Borrowers();
    }

    method StartPoll(k: Waker) returns (ready: bool)
      requires Valid() && s.lender.Resting?
      modifies this
      ensures Valid() && Grew(old(s), s) && heard == old(heard) <= s.mark
      ensures ready ==> s.lender == Resting(true) && Alone(s) && count == 3
      ensures !ready ==> s.lender == Pending(false) && s.latest == k
      ensures old(Alone(s)) ==> ready
    {
      Begin(Event.StartPoll(k));
      var found := count;
      Then();
      if found == 3 {
        return true;
      }
      ready := Withdraw(k);
    }

    // The rest of `start_poll`: store the waker and withdraw 2.
    method Withdraw(k: Waker) returns (ready: bool)
      requires Valid() && s.lender == StartStore(k)
      modifies this
      ensures Valid() && Grew(old(s), s) && heard == old(heard) && s.mark == old(s.mark)
      ensures ready ==> s.lender == Resting(true) && Alone(s) && count == 3
      ensures !ready ==> s.lender == Pending(false) && s.latest == k
    {
      waker := waker.Store(k);
      Then();
      var found := SubtractTwo(k);
      ready := found == 1;
      if ready {
        Settle();
      }
    }

    method SubtractTwo(k: Waker) returns (found: int)
      requires Valid() && s.lender == StartSub(k) && s.latest == k
      modifies this
      ensures Valid() && Grew(old(s), s) && heard == old(heard) && s.mark == old(s.mark) && s.latest == k
      ensures s.lender == if found == 1 then StartClear else Pending(false)
    {
      count := count - 2;
      found := count;
      Then();
    }

    // The last borrow went before the 2 was withdrawn: the lender settles the count itself.
    method Settle()
      requires Valid() && s.lender.StartClear?
      modifies this
      ensures Valid() && Grew(old(s), s) && heard == old(heard) && s.mark == old(s.mark)
      ensures s.lender == Resting(true) && Alone(s) && count == 3
    {
      waker := waker.Take();
      Then();
      var found := count;
      count := 3;
      assert found == 1;
      Then();
    }

    // Every turn is one round of the loop, which does not end by itself while borrows are held.
    method ResumePoll(k: Waker, turns: nat) returns (r: Poll)
      requires Valid() && s.lender.Pending?
      modifies this
      ensures Valid() && Grew(old(s), s) && heard == old(heard) <= s.mark
      ensures old(s.latest) == k ==> s.latest == k
      ensures r.Ready? ==> s.lender == Pending(true) && Alone(s) && count == 2
      ensures r.NotReady? ==> s.lender == Pending(false) && s.live == 0 && token
      ensures old(Alone(s) && !s.missed) && turns > 0 ==> r.Ready?
      ensures r.Unfinished? ==> s.lender.ResumeLoop? && s.lender.k == k
    {
      Begin(Event.ResumePoll(k));
      var seen := count;
      Then();
      for turn := 0 to turns
        invariant Valid() && s.lender == ResumeLoop(k, seen) && Grew(old(s), s) && heard == old(heard) <= s.mark
        invariant old(s.latest) == k ==> s.latest == k
        invariant old(Alone(s) && !s.missed) ==> seen == 2 && turn == 0
      {
        if seen == 1 || seen == 2 {
          r := AnswerResumed(k, seen);
          return;
        }
        seen := ReplaceWaker(k, seen);
      }
      return Unfinished;
    }

    // The arms that answer; at 1 the lender's thread wakes itself.
    method AnswerResumed(k: Waker, seen: int) returns (r: Poll)
      requires Valid() && s.lender == ResumeLoop(k, seen) && seen in {1, 2}
      modifies this
      ensures Valid() && Grew(old(s), s) && heard == old(heard) && s.mark == old(s.mark) && s.latest == old(s.latest)
      ensures r.Ready? ==> s.lender == Pending(true) && Alone(s) && count == 2
      ensures r.NotReady? ==> s.lender == Pending(false) && s.live == 0 && token
      ensures r.Ready? <==> seen == 2
      ensures !r.Unfinished?
    {
      if seen == 2 {
        Then();
        return Ready;
      }
      token := true;
      Then();
      return NotReady;
    }

    // The third arm: put 2 back so that nobody takes the waker, swap it, withdraw 2 again.
    method ReplaceWaker(k: Waker, seen: int) returns (found: int)
      requires Valid() && s.lender == ResumeLoop(k, seen) && seen != 1 && seen != 2
      modifies this
      ensures Valid() && s.lender == ResumeLoop(k, found)
      ensures Grew(old(s), s) && heard == old(heard) && s.mark == old(s.mark)
      ensures old(s.latest) == k ==> s.latest == k
    {
      var fail: bool := *;
      found := count;
      if found == seen && !fail {
        count := seen + 2;
      }
      Then(fail);
      if found == seen && !fail {
        found := SwapWaker(k);
      }
    }

    method SwapWaker(k: Waker) returns (found: int)
      requires Valid() && s.lender == ResumeClear(k)
      modifies this
      ensures Valid() && s.lender == ResumeLoop(k, found)
      ensures Grew(old(s), s) && heard == old(heard) && s.mark == old(s.mark)
      ensures old(s.latest) == k ==> s.latest == k
    {
      waker := waker.Take();
      Then();
      found := StoreAndWithdraw(k);
    }

    method StoreAndWithdraw(k: Waker) returns (found: int)
      requires Valid() && s.lender == ResumeStore(k)
      modifies this
      ensures Valid() && s.lender == ResumeLoop(k, found)
      ensures Grew(old(s), s) && heard == old(heard) && s.mark == old(s.mark)
      ensures old(s.latest) == k ==> s.latest == k
    {
      waker := waker.Store(k);
      Then();
      found := WithdrawAgain(k);
    }

    method WithdrawAgain(k: Waker) returns (found: int)
      requires Valid() && s.lender == ResumeSub(k)
      modifies this
      ensures Valid() && s.lender == ResumeLoop(k, found) && s.latest == old(s.latest)
      ensures Grew(old(s), s) && heard == old(heard) && s.mark == old(s.mark)
    {
      count := count - 2;
      found := count;
      Then();
    }

    method TryCollect(pending: bool) returns (done: bool)
      requires Valid() && (if pending then s.lender.Pending? else s.lender.Resting?)
      modifies this
      ensures Valid() && Grew(old(s), s)
      ensures done ==> s.lender == Resting(true) && Alone(s) && count == 3
      ensures !done ==> s.lender == if pending then Pending(false) else Resting(false)
      ensures old(Alone(s)) && (pending ==> !old(s.missed)) ==> done
      ensures old(count) == (if pending then 2 else 3) ==> done
    {
      Begin(Event.TryCollect(pending));
      var found := count;
      Then();
      if pending && found == 2 {
        TakeShareBack();
        return true;
      }
      return !pending && found == 3;
    }

    // The swap of `try_collect` after a poll.
    method TakeShareBack()
      requires Valid() && s.lender.TrySwap?
      modifies this
      ensures Valid() && Grew(old(s), s)
      ensures s.lender == Resting(true) && Alone(s) && count == 3
    {
      var found := count;
      count := 3;
      assert found == 2;
      Then();
    }

    method CancelPoll(reset: bool) returns (r: Cancelled)
      requires Valid() && s.lender == CancelLoad(reset)
      modifies this
      ensures Valid()
      ensures r.Collected? ==> Alone(s)
      ensures r.Collected? ==> s.lender == (if reset then Resting(false) else DropFree)
      ensures r.Withdrew? ==> s.lender == (if reset then Resting(false) else DropSub)
      ensures r.AtOne? ==> s.lender == CancelLoop(reset, 1)
      ensures old(Alone(s) && !s.missed) ==> r.Collected?
    {
      var seen := count;
      Then();
      while seen != 2
        invariant Valid() && s.lender == CancelLoop(reset, seen)
        invariant old(Alone(s) && !s.missed) ==> seen == 2
        decreases fuel, seen != count
      {
        var fail: bool := *;
        if count != seen || (fail && fuel > 0) {
          fuel := if count == seen then fuel - 1 else fuel;
          seen := Reload(reset, seen);
        } else if seen == 1 {
          return AtOne;
        } else {
          TakeBack(reset, seen);
          return Withdrew;
        }
      }
      Finish(reset);
      return Collected;
    }

    // A compare-exchange that failed, with the count it found.
    method Reload(reset: bool, seen: int) returns (found: int)
      requires Valid() && s.lender == CancelLoop(reset, seen) && seen != 2
      modifies this
      ensures Valid() && s.lender == CancelLoop(reset, found)
      ensures fuel <= old(fuel) && (fuel == old(fuel) ==> found == count)
    {
      found := count;
      Then(true);
    }

    // The first arm: the last borrow has settled the count.
    method Finish(reset: bool)
      requires Valid() && s.lender == CancelLoop(reset, 2)
      modifies this
      ensures Valid() && Alone(s)
      ensures s.lender == (if reset then Resting(false) else DropFree)
    {
      Then();
      if reset {
        assert count == 2;
        count := 3;
        Then();
      }
    }

    // The second arm, which gives the notifier its 2 back, where it does no harm.
    method PutBack()
      requires Valid() && s.lender == CancelLoop(true, 1) && count == 1 && s.swapping == 1
      modifies this
      ensures Valid() && s.lender == Resting(false)
    {
      count := 5;
      Then();
    }

    // The third arm: put 2 back so that nobody takes the waker, and remove it.
    method TakeBack(reset: bool, seen: int)
      requires Valid() && s.lender == CancelLoop(reset, seen) && count == seen && seen != 1 && seen != 2
      modifies this
      ensures Valid() && s.lender == (if reset then Resting(false) else DropSub)
    {
      count := seen + 2;
      Then();
      waker := waker.Take();
      Then();
    }

    // True when this call frees the allocation; `AtOne` as for `CancelPoll`.
    method DropLender(pending: bool) returns (freed: bool, r: Cancelled)
      requires Valid() && (s.lender.Pending? || s.lender.Resting?) && pending == s.lender.Pending?
      modifies this
      ensures Valid()
      ensures r.AtOne? <==> !s.lender.Gone?
      ensures freed ==> s.lender.Gone? && Alone(s) && s.frees == 1
      ensures old(Alone(s)) && (pending ==> !old(s.missed)) ==> freed
      ensures old(count) == (if pending then 2 else 3) ==> freed
    {
      Begin(Event.DropLender(pending));
      r := Withdrew;
      if pending {
        r := CancelPoll(false);
        if r.AtOne? {
          return false, r;
        }
      }
      freed := GiveUp(r.Collected?);
    }

    // The lender takes its 3 out, unless it is alone already, and frees if it was the last.
    method GiveUp(alone: bool) returns (freed: bool)
      requires Valid() && s.lender == (if alone then DropFree else DropSub)
      modifies this
      ensures Valid() && s.lender.Gone?
      ensures freed ==> Alone(s) && s.frees == 1
      ensures alone || old(Alone(s)) ==> freed
    {
      freed := alone;
      if !alone {
        freed := count == 3;
        count := count - 3;
        Then();
      }
      if freed {
        Then();
      }
    }

    // The lender and all other borrowing threads run; nobody else moves a thread from its place.
    method OthersRun(ghost p: Place)
      requires Valid() && At(p, s)
      modifies this
      ensures Valid() && At(p, s) && Grew(old(s), s)
    {
    }

    // A borrowing thread's own operation has happened.
    ghost method Did(e: Event)
      requires Inv(s)
      modifies this`s
      ensures s == BorrowStep(old(s), e) && Inv(s)
    {
      BorrowKeeps(s, e);
      s := BorrowStep(s, e);
    }

    /** The borrow is given up in the step from `was` to `now`.  True when the caller has to
        free the allocation, false when the thread is done with it; unless a cancelled poll
        interrupts the notification, the count before the step says which.  `returned` is
        false when the turns ran out while interruptions went on. */
    method DecCountRef(turns: nat) returns (last: bool, returned: bool, ghost was: State, ghost now: State)
      requires Valid() && s.live > 0
      modifies this
      ensures Valid()
      ensures Inv(was) && Grew(old(s), was) && was.live > 0 && now == BorrowStep(was, Release) && Grew(now, s)
      ensures last ==> s.freeing == 1 && s.frees == 0 && s.lender.Gone? && Alone(s)
      ensures returned && !last ==> s.givenBack > was.givenBack
      ensures was.count != 3 ==> returned && (last <==> was.count == 2)
    {
      OthersRun(Holding);
      was := s;
      count := count - 2;
      var found := count;
      Did(Release);
      now := s;
      last, returned := false, true;
      if found == 0 {
        OthersRun(FreeingIt);
        last := true;
      } else if found == 1 {
        last, returned := Notify(turns);
      }
    }

    // The last borrow calls the waker and settles the count, again if it was interrupted.
    method Notify(turns: nat) returns (last: bool, returned: bool)
      requires Valid() && s.waking > 0
      modifies this
      ensures Valid() && Grew(old(s), s)
      ensures last ==> s.freeing == 1 && s.frees == 0 && s.lender.Gone? && Alone(s)
      ensures returned && !last ==> s.givenBack > old(s.givenBack)
    {
      for turn := 0 to turns
        invariant Valid() && s.waking > 0 && Grew(old(s), s)
      {
        var settled := WakeAndSettle();
        if settled {
          return false, true;
        }
        var found := TryAgain();
        if found == 0 {
          OthersRun(FreeingIt);
          return true, true;
        }
        if found != 1 {
          return false, true;
        }
      }
      return false, false;
    }

    method TryAgain() returns (found: int)
      requires Valid() && s.retrying > 0
      modifies this
      ensures Valid() && Grew(old(s), s)
      ensures if found == 0 then s.freeing > 0 else if found == 1 then s.waking > 0
              else s.givenBack > old(s.givenBack)
    {
      OthersRun(TryingAgain);
      count := count - 2;
      found := count;
      Did(Retry);
    }

    method WakeAndSettle() returns (settled: bool)
      requires Valid() && s.waking > 0
      modifies this
      ensures Valid() && Grew(old(s), s)
      ensures if settled then s.givenBack > old(s.givenBack) else s.retrying > 0
    {
      OthersRun(CallingWaker);
      waker := waker.Take();
      token := true;
      Did(WakeLender);
      OthersRun(SettlingCount);
      settled := count == 1;
      if settled {
        count := 2;
      }
      Did(SwapCount);
    }

    // The lender's thread parks: at once if the token is there, else it sleeps until it is.
    method Park(turns: nat) returns (woken: bool)
      requires Valid() && s.lender == Pending(false) && heard <= s.mark
      modifies this
      ensures Valid() && s.lender == Pending(false) && Grew(old(s), s) && s.latest == old(s.latest)
      ensures !woken ==> !token && heard <= s.mark
    {
      for turn := 0 to turns
        invariant Valid() && s.lender == Pending(false) && Grew(old(s), s) && s.latest == old(s.latest)
        invariant heard <= s.mark
      {
        if token {
          token := false;
          heard := s.wakes;
          return true;
        }
        Borrowers();
      }
      woken := token;
      if token {
        token := false;
        heard := s.wakes;
      }
    }

    /** `CollectOnDrop`, with the loop of `block_on_poll`: one poll after another, and a park
        after each that is pending.  It is done only when every borrow ever lent was given
        back, and it sleeps only while somebody is still to call its waker. */
    method CollectOnDrop(k: Waker, turns: nat) returns (w: Wait)
      requires Valid() && s.lender.Resting?
      modifies this
      ensures Valid() && Grew(old(s), s)
      ensures w.Done? ==> s.lent == s.givenBack && Alone(s)
      ensures w.Asleep? ==> !token && Awaited(s) && waker == Full(k)
      ensures w.Busy? && turns > 0 ==> !s.lender.Resting?
      ensures old(Alone(s)) ==> w.Done?
    {
      var collected := TryCollect(false);
      if collected {
        return Done;
      }
      var first := true;
      for turn := 0 to turns
        invariant Valid() && Grew(old(s), s)
        invariant if first then turn == 0 && s.lender.Resting? else s.lender == Pending(false) && s.latest == k
      {
        if first {
          first := false;
          collected := StartPoll(k);
        } else {
          var r := ResumePoll(k, turns);
          if r.Unfinished? {
            return Busy;
          }
          collected := r.Ready?;
        }
        if collected {
          return Done;
        }
        var woken := Park(turns);
        if !woken {
          return Asleep;
        }
      }
      return Busy;
    }

    /** `PinShared::with`: lend one borrow to the closure, let every thread that gets hold of it
        run, and return only when all borrows were given back. */
    method With(k: Waker, turns: nat) returns (w: Wait)
      requires Valid() && s.lender.Resting?
      modifies this
      ensures Valid()
      ensures s.lent > old(s.lent)
      ensures w.Busy? && turns > 0 ==> !s.lender.Resting?
      ensures w.Done? ==> s.lent == s.givenBack && Alone(s)
      ensures w.Asleep? ==> !token && Awaited(s) && waker == Full(k)
    {
      count := count + 2;
      StepKeeps(s, Event.Borrow);
      s := Next(s, Event.Borrow);
      Borrowers();
      w := CollectOnDrop(k, turns);
    }
  }
}
