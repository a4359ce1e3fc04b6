/** The mutex and condition variable parker in the form of its source.  Between any two
    operations of the parking thread, unparking threads take any number of steps. */
module PthreadObject {
  import opened ParkToken
  import opened PthreadPark

  // What the parking thread may rely on while other threads run.
  predicate Rely(s: State, s': State) {
    && Inv(s') && s'.taken == s.taken && s'.first >= s.first
    && (s'.word == s.word || s'.word == s.word.(unpark := true))
    && (s'.pc == s.pc || (s.pc.Asleep? && s'.pc.Relock? && s'.pc.timed == s.pc.timed && (s'.pc.out ==> s.pc.timed)))
  }

  predicate OfOthers(e: Event) {
    e.CallUnpark? || e.UnparkerLocks? || e.UnparkerUnlocks? || e.UnparkerSignals? || e.Spurious?
  }

  lemma OthersKeepRely(s: State, s': State, e: Event)
    requires Rely(s, s') && !s.pc.Idle? && (OfOthers(e) || (e.Expired? && s'.pc.Asleep?))
    ensures Rely(s, Next(s', e))
  {
    StepKeeps(s', e);
  }

  // Where an unparking thread stands; nobody else moves it on.
  datatype Place = Nowhere | Locking | Unlocking | Signalling

  predicate At(p: Place, s: State) {
    match p
    case Nowhere => true
    case Locking => s.locking > 0
    case Unlocking => s.unlocking > 0
    case Signalling => s.signalling > 0
  }

  // What no step takes back.
  predicate Grew(s: State, s': State) {
    s.first <= s'.first && s.taken <= s'.taken && s.signalled <= s'.signalled
  }

  // An event of another thread than the one in place p.
  predicate OfAnother(p: Place, s: State, e: Event) {
    match e
    case UnparkerLocks => p.Locking? ==> s.locking > 1
    case UnparkerUnlocks => p.Unlocking? ==> s.unlocking > 1
    case UnparkerSignals => p.Signalling? ==> s.signalling > 1
    case _ => true
  }

  lemma OthersKeepPlace(p: Place, s: State, e: Event)
    requires Inv(s) && At(p, s) && OfAnother(p, s, e)
    ensures Inv(Next(s, e)) && At(p, Next(s, e)) && Grew(s, Next(s, e))
  {
    StepKeeps(s, e);
  }

  class ParkImpl {
    var state: Word
    var mutex: Owner
    ghost var s: State

    ghost predicate Valid()
      reads this
    {
      s.word == state && s.mutex == mutex && Inv(s)
    }

    // Other threads run, and may end a sleep; the parking thread knows no more than this.
    method Others()
      requires Valid()
      modifies this
      ensures Valid() && Rely(old(s), s)
    {
    }

    // The parking thread's next operation has just happened, and then other threads run.
    method Then()
      requires Inv(s)
      requires var s' := ParkerStep(s); s'.word == state && s'.mutex == mutex
      modifies this
      ensures Valid() && Rely(ParkerStep(old(s)), s)
    {
      ParkerKeeps(s);
      s := ParkerStep(s);
      Others();
    }

    // `pthread_mutex_lock`: false when the turns ran out before the mutex was free.
    method LockMutex(turns: nat) returns (ok: bool)
      requires Valid() && (s.pc.Lock? || s.pc.Relock?)
      modifies this
      ensures Valid() && s.taken == old(s.taken) && s.first >= old(s.first)
      ensures state == old(state) || state == old(state).(unpark := true)
      ensures !ok ==> s.pc == old(s.pc)
      ensures ok ==> s.pc == match old(s.pc) case Lock(timed) => Announce(timed)
                                             case Relock(timed, out) => Check(timed, out) case pc => pc
    {
      for turn := 0 to turns
        invariant Valid() && s.pc == old(s.pc) && s.taken == old(s.taken) && s.first >= old(s.first)
        invariant state == old(state) || state == old(state).(unpark := true)
      {
        if mutex == Free {
          mutex := Parker;
          Then();
          return true;
        }
        Others();
      }
      return false;
    }

    // `returned` is false when the turns ran out before the call returned.
    method Park(timed: bool, turns: nat) returns (r: ParkResult, returned: bool)
      requires Valid() && s.pc.Idle?
      modifies this
      ensures Valid()
      ensures old(state.unpark) ==> returned && r == Skipped
      ensures returned ==> s.pc == Idle(r) && s.taken == old(s.taken) + (if Takes(r) then 1 else 0)
      ensures !returned ==> !s.pc.Idle? && s.taken == old(s.taken)
      ensures returned && r == TimedOut ==> timed
    {
      r, returned := TimedOut, false;
      StepKeeps(s, CallPark(timed));
      s := Next(s, CallPark(timed));
      Others();
      var seen := state;
      Then();
      if seen.unpark {
        Consume(seen);
        return Skipped, true;
      }
      if !seen.init {
        Then();
      }
      var ok := LockMutex(turns);
      if ok {
        ok := SetPark(timed);
        if ok {
          return Skipped, true;
        }
        r, returned := Sleep(timed, turns);
      }
    }

    // The swap that uses up a token found before sleeping.
    method Consume(seen: Word)
      requires Valid() && (s.pc == SkipSwap(seen) || s.pc == LateSwap(seen))
      modifies this
      ensures Valid() && s.pc == Idle(Skipped) && s.taken == old(s.taken) + 1
    {
      assert state == seen;
      state := seen.(unpark := false);
      Then();
    }

    method SetPark(timed: bool) returns (skipped: bool)
      requires Valid() && s.pc == Pc.Announce(timed)
      modifies this
      ensures Valid() && s.taken == old(s.taken) + (if skipped then 1 else 0)
      ensures s.pc == if skipped then Idle(Skipped) else Wait(timed)
    {
      state := state.(init := true, park := true);
      var seen := state;
      Then();
      skipped := seen.unpark;
      if skipped {
        mutex := Free;
        Then();
        Consume(seen);
      }
    }

    // `pthread_cond_wait`, up to the point where the mutex has to be taken again; a timeout
    // that has passed already does not let go of the mutex.
    method CondWait(timed: bool) returns (woken: bool, out: bool, held: bool)
      requires Valid() && s.pc == Wait(timed)
      modifies this
      ensures Valid() && s.taken == old(s.taken)
      ensures !woken ==> s.pc == Asleep(timed)
      ensures woken ==> s.pc == if held then Check(timed, out) else Relock(timed, out)
      ensures woken && out ==> timed
    {
      var past: bool := *;
      if timed && past {
        StepKeeps(s, Expired);
        s := Next(s, Expired);
        Others();
        return true, true, true;
      }
      held := false;
      mutex := Free;
      ParkerKeeps(s);
      s := ParkerStep(s);
      woken, out := Dream(timed);
    }

    // Other threads run while this one sleeps, and may end its sleep.
    method Dream(timed: bool) returns (woken: bool, out: bool)
      requires Valid() && s.pc == Asleep(timed)
      modifies this
      ensures Valid() && Rely(old(s), s)
      ensures s.pc == if woken then Relock(timed, out) else Asleep(timed)
    {
      return false, false;
    }

    // The wait loop of `park`.
    method Sleep(timed: bool, turns: nat) returns (r: ParkResult, returned: bool)
      requires Valid() && s.pc == Wait(timed)
      modifies this
      ensures Valid()
      ensures returned ==> s.pc == Idle(r) && s.taken == old(s.taken) + (if Takes(r) then 1 else 0)
      ensures !returned ==> !s.pc.Idle? && s.taken == old(s.taken)
      ensures returned && r == TimedOut ==> timed
    {
      r, returned := TimedOut, false;
      for turn := 0 to turns
        invariant Valid() && s.pc == Wait(timed) && s.taken == old(s.taken)
      {
        var woken, out, held := CondWait(timed);
        if woken && !held {
          woken := LockMutex(turns);
        }
        if !woken {
          return;
        }
        var seen := state;
        Then();
        if out || seen.unpark {
          r := Leave(seen, out);
          returned := true;
          return;
        }
      }
    }

    // The swap that decides the result, and the way out.
    method Leave(seen: Word, out: bool) returns (r: ParkResult)
      requires Valid() && s.pc == Swap(seen, out)
      modifies this
      ensures Valid() && s.pc == Idle(r) && s.taken == old(s.taken) + (if Takes(r) then 1 else 0)
      ensures r != Skipped && (r == TimedOut ==> out)
    {
      var found := state;
      state := seen.(park := false, unpark := false);
      Then();
      mutex := Free;
      r := if found.unpark then Unparked else TimedOut;
      Then();
    }

    // All other threads run, the parking one among them.
    method OthersRun(ghost p: Place)
      requires Valid() && At(p, s)
      modifies this
      ensures Valid() && At(p, s) && Grew(old(s), s)
    {
    }

    ghost method Did(e: Event)
      requires Inv(s)
      modifies this`s
      ensures s == Next(old(s), e) && Inv(s)
    {
      StepKeeps(s, e);
      s := Next(s, e);
    }

    /** The call's own operation is the step from `was` to `now`, and its answer is that
        step's; if the other thread was parked, a signal was sent before the call returned.
        `returned` is false when the turns ran out before the mutex was free. */
    method Unpark(turns: nat) returns (first: bool, returned: bool, ghost was: State, ghost now: State)
      requires Valid()
      modifies this
      ensures Valid()
      ensures Inv(was) && Grew(old(s), was) && now == Next(was, CallUnpark) && Grew(now, s)
      ensures first == !was.word.unpark
      ensures returned && first && was.word.park ==> s.signalled > was.signalled
      ensures !returned ==> first && s.locking > 0
    {
      OthersRun(Nowhere);
      was := s;
      var found := state;
      state := found.(unpark := true);
      Did(CallUnpark);
      now := s;
      first, returned := !found.unpark, true;
      if first && found.park {
        returned := Signal(turns);
      }
    }

    // Take the mutex and give it back, so that the parked thread is waiting, and signal it.
    method Signal(turns: nat) returns (sent: bool)
      requires Valid() && s.locking > 0
      modifies this
      ensures Valid() && Grew(old(s), s)
      ensures if sent then s.signalled > old(s.signalled) else s.locking > 0
    {
      for turn := 0 to turns
        invariant Valid() && s.locking > 0 && Grew(old(s), s)
      {
        OthersRun(Locking);
        if mutex == Free {
          mutex := Unparker;
          Did(UnparkerLocks);
          OthersRun(Unlocking);
          mutex := Free;
          Did(UnparkerUnlocks);
          OthersRun(Signalling);
          Did(UnparkerSignals);
          return true;
        }
      }
      return false;
    }
  }

  const MAX_SECS := 0x7fff_ffff_ffff_ffff
  const NANOS := 1_000_000_000

  datatype Timespec = Timespec(sec: int, nsec: int)

  datatype Deadline = Never | Until(at: Timespec)

  /** A relative timeout added to the clock: the exact sum, with the nanoseconds normalized,
      or no deadline at all exactly when the seconds of the sum do not fit. */
  method TimeoutToTimespec(secs: nat, nanos: nat, now: Timespec) returns (r: Deadline)
    requires nanos < NANOS && 0 <= now.nsec < NANOS && 0 <= now.sec <= MAX_SECS
    ensures r.Never? <==> now.sec * NANOS + now.nsec + secs * NANOS + nanos >= (MAX_SECS + 1) * NANOS
    ensures r.Until? ==> 0 <= r.at.nsec < NANOS
    ensures r.Until? ==> r.at.sec * NANOS + r.at.nsec == now.sec * NANOS + now.nsec + secs * NANOS + nanos
  {
    if secs > MAX_SECS {
      return Never;
    }
    var nsec := now.nsec + nanos;
    var sec := now.sec + secs;
    if sec > MAX_SECS {
      return Never;
    }
    if nsec >= NANOS {
      nsec := nsec - NANOS;
      if sec + 1 > MAX_SECS {
        return Never;
      }
      sec := sec + 1;
    }
    return Until(Timespec(sec, nsec));
  }
}

/** The futex parker in the form of its source. */
module FutexObject {
  import opened ParkToken
  import opened FutexPark

  // What the parking thread may rely on while other threads run.
  predicate Rely(s: State, s': State) {
    && Inv(s') && s'.taken == s.taken && s'.first >= s.first
    && (s'.word == s.word || s'.word == s.word.(unpark := true))
    && (s'.pc == s.pc || (s.pc.Asleep? && s'.pc.Check? && s'.pc.timed == s.pc.timed
                          && s'.pc.expected == s.pc.expected && (s'.pc.out ==> s.pc.timed)))
  }

  lemma OthersKeepRely(s: State, s': State, e: Event)
    requires Rely(s, s') && !s.pc.Idle?
    requires e.CallUnpark? || e.UnparkerWakes? || e.Spurious? || (e.Expired? && s'.pc.Asleep?)
    ensures Rely(s, Next(s', e))
  {
    StepKeeps(s', e);
  }

  // What no step takes back.
  predicate Grew(s: State, s': State) { s.first <= s'.first && s.taken <= s'.taken && s.woke <= s'.woke }

  // Any event but the only wake that is owed.
  lemma OthersKeepOwing(owes: bool, s: State, e: Event)
    requires Inv(s) && (owes ==> s.waking > 0) && (owes && e.UnparkerWakes? ==> s.waking > 1)
    ensures Inv(Next(s, e)) && (owes ==> Next(s, e).waking > 0) && Grew(s, Next(s, e))
  {
    StepKeeps(s, e);
  }

  class ParkImpl {
    var state: Word
    ghost var s: State

    ghost predicate Valid()
      reads this
    {
      s.word == state && Inv(s)
    }

    method Others()
      requires Valid()
      modifies this
      ensures Valid() && Rely(old(s), s)
    {
    }

    // The event `e` of the parking thread has just happened, and then other threads run.
    method Then(ghost e: Event := ParkerMove)
      requires Inv(s) && Next(s, e).word == state
      modifies this
      ensures Valid() && Rely(Next(old(s), e), s)
    {
      StepKeeps(s, e);
      s := Next(s, e);
      Others();
    }

    // `returned` is false when the turns ran out before the call returned.
    method Park(timed: bool, turns: nat) returns (r: ParkResult, returned: bool)
      requires Valid() && s.pc.Idle?
      modifies this
      ensures Valid()
      ensures old(state.unpark) ==> returned && r == Skipped
      ensures returned ==> s.pc == Idle(r) && s.taken == old(s.taken) + (if Takes(r) then 1 else 0)
      ensures !returned ==> !s.pc.Idle? && s.taken == old(s.taken)
      ensures returned && r == TimedOut ==> timed
    {
      Then(CallPark(timed));
      var seen := state;
      Then();
      if !seen.unpark {
        var found := state;
        if found == seen {
          state := seen.(park := true);
          Then();
          r, returned := Sleep(timed, seen.(park := true), turns);
          return;
        }
        seen := found;
        Then();
      }
      assert s.pc == SkipSwap(seen) && state == seen;
      state := seen.(unpark := false);
      Then();
      return Skipped, true;
    }

    // The wait loop of `park`.
    method Sleep(timed: bool, expected: Word, turns: nat) returns (r: ParkResult, returned: bool)
      requires Valid() && s.pc == Wait(timed, expected)
      modifies this
      ensures Valid()
      ensures returned ==> s.pc == Idle(r) && s.taken == old(s.taken) + (if Takes(r) then 1 else 0)
      ensures !returned ==> !s.pc.Idle? && s.taken == old(s.taken)
      ensures returned && r == TimedOut ==> timed
    {
      r, returned := TimedOut, false;
      for turn := 0 to turns
        invariant Valid() && s.pc == Wait(timed, expected) && s.taken == old(s.taken)
      {
        var woken, out := FutexWait(timed, expected);
        if !woken {
          return;
        }
        var seen := state;
        Then();
        if out || seen.unpark {
          var found := state;
          state := seen.(park := false, unpark := false);
          Then();
          return if found.unpark then Unparked else TimedOut, true;
        }
      }
    }

    // `futex_wait`: asleep only if the word is still the expected one.
    method FutexWait(timed: bool, expected: Word) returns (woken: bool, out: bool)
      requires Valid() && s.pc == Wait(timed, expected)
      modifies this
      ensures Valid() && s.taken == old(s.taken) && (woken && out ==> timed)
      ensures s.pc == if woken then Check(timed, expected, out) else Asleep(timed, expected)
    {
      var past: bool := *;
      if timed && past {
        Then(Expired);
        return true, true;
      }
      StepKeeps(s, ParkerMove);
      s := ParkerStep(s);
      if state != expected {
        return true, false;
      }
      woken, out := Dream(timed, expected);
    }

    // Other threads run while this one sleeps, and may end its sleep.
    method Dream(timed: bool, expected: Word) returns (woken: bool, out: bool)
      requires Valid() && s.pc == Asleep(timed, expected)
      modifies this
      ensures Valid() && Rely(old(s), s)
      ensures s.pc == if woken then Check(timed, expected, out) else Asleep(timed, expected)
    {
      return false, false;
    }

    // All other threads run; an unparking thread that owes a wake keeps owing it.
    method OthersRun(ghost owes: bool)
      requires Valid() && (owes ==> s.waking > 0)
      modifies this
      ensures Valid() && (owes ==> s.waking > 0) && Grew(old(s), s)
    {
    }

    /** The call's own operation is the step from `was` to `now`, and its answer is that
        step's; if the other thread was parked, a wake was sent before the call returned. */
    method Unpark() returns (first: bool, ghost was: State, ghost now: State)
      requires Valid()
      modifies this
      ensures Valid()
      ensures Inv(was) && Grew(old(s), was) && now == Next(was, CallUnpark) && Grew(now, s)
      ensures first == !was.word.unpark
      ensures first && was.word.park ==> s.woke > was.woke
    {
      OthersRun(false);
      was := s;
      var found := state;
      state := found.(unpark := true);
      StepKeeps(s, CallUnpark);
      s := Next(s, CallUnpark);
      now := s;
      first := !found.unpark;
      if first && found.park {
        OthersRun(true);
        StepKeeps(s, UnparkerWakes);
        s := Next(s, UnparkerWakes);
      }
    }
  }
}
