/** The open phase of the channel, over every interleaving of every run: no finalizing
    call, no cancel, no dropped side.  One inductive invariant carries mutual exclusion on
    both cells, exactly-once delivery in order, and the absence of lost wake-ups. */
module ChannelOpen {
  import opened Cells
  import opened ChannelSteps
  import opened Runs

  predicate OpenEvent(e: Event) {
    match e
    case CallWrite(_, _, fin) => !fin
    case CallFlush(_, fin) => !fin
    case CallRead(_, cancel) => !cancel
    case _ => true
  }

  /** A run from a fresh channel in which every event belongs to the open phase. */
  ghost predicate OpenRun(log: seq<Event>, run: seq<State>) {
    IsRun(INIT, Next, log, run) && forall i :: 0 <= i < |log| ==> OpenEvent(log[i])
  }

  // --- Who holds which lock, read off the program counters

  predicate WriterLocks(w: WriterPc) {
    w.WTake? || w.WPut? || w.WCas? || w.WClear? || w.WUndo? || w.WRelease?
    || w.FClear? || w.FPut? || w.FCas? || w.FUndoClear? || w.FUndo?
  }

  predicate ReaderTakes(r: ReaderPc) { r.RTake? || r.RTakeWaker? || r.RUnlock? }

  predicate ReaderStores(r: ReaderPc) {
    r.RClear? || r.RPut? || r.RCas? || r.RUndoClear? || r.RUndo?
  }

  // The reader owns the waker cell when it stores, or when it takes a value and found WLOCK clear.
  predicate ReaderLocks(r: ReaderPc) {
    ReaderStores(r) || (ReaderTakes(r) && !r.prev.wlock)
  }

  // --- The invariant, part by part

  predicate Bits(s: State) {
    && s.word.active
    && s.word.rlock == (ReaderTakes(s.r) || ReaderStores(s.r))
    && s.word.wlock == (WriterLocks(s.w) || ReaderLocks(s.r))
    && !(WriterLocks(s.w) && ReaderLocks(s.r))
    && (ReaderTakes(s.r) ==> s.word.loaded)
    && (WriterLocks(s.w) || ReaderStores(s.r) ==> s.word.wake)
    && (ReaderTakes(s.r) && !s.r.prev.wlock ==> s.word.wake == s.r.prev.wake)
    && (ReaderTakes(s.r) && s.r.prev.wlock && !WriterLocks(s.w) ==> !s.word.wake)
    && (s.w.WStore? || s.w.WFast? || s.w.WOr? || s.w.FFinish? ==> !s.word.loaded)
    && (s.r.RAcquire? ==> s.word.loaded)
  }

  // What each side remembers of the word while it is in the middle of a call.
  predicate WriterLocals(w: WriterPc) {
    match w
    case WIdle(WriteErr(_, dropped)) => !dropped
    case WIdle(FlushReady(value, dropped)) => value.None? && !dropped
    case WLoad(_, _, fin) => !fin
    case WStore(_, _, fin, seen) => !fin && seen.active && !seen.loaded
    case WFast(_, fin, seen) => !fin && seen.active && !seen.loaded && !seen.wake
    case WOr(_, _, fin) => !fin
    case WTake(_, fin, prev) => !fin && prev.active && !prev.loaded && !prev.wlock && !prev.rlock
    case WPut(_, prev, _) => prev.active && !prev.loaded && !prev.wlock && !prev.rlock
    case WCas(_, prev, _) => prev.active && !prev.loaded && !prev.wlock && !prev.rlock
    case WClear(_, found) => !found.loaded || found.rlock
    case WRelease(fin, _) => !fin
    case FLoad(_, fin) => !fin
    case FFinish(fin) => !fin
    case FAcquire(_, fin, prev) => !fin && prev.active && prev.loaded && !prev.rlock
    case FClear(_, fin, prev) => !fin && prev.active && prev.loaded && !prev.rlock && !prev.wlock && prev.wake
    case FPut(_, fin, prev) => !fin && prev.active && prev.loaded && !prev.rlock && !prev.wlock
    case FCas(_, fin, prev) => !fin && prev.active && prev.loaded && !prev.rlock && !prev.wlock
    case FUndoClear(_, fin) => !fin
    case FUndo(_, fin) => !fin
    case _ => WriterArms(w)
  }

  // The arms the open phase never reaches: rejecting, taking back, panicking.
  predicate WriterArms(w: WriterPc) {
    !(w.WReject? || w.WPanic? || w.FClearLast? || w.FReset? || w.FGone? || w.FTakeBack?)
  }

  predicate ReaderLocals(r: ReaderPc) {
    match r
    case RIdle(ReadReady(_, dropped)) => !dropped
    case RLoad(_, cancel) => !cancel
    case RAcquire(_, cancel, prev) => !cancel && prev.active && prev.loaded
    case RTake(prev) => prev.active && prev.loaded && !prev.rlock
    case RTakeWaker(_, prev) => prev.active && prev.loaded && !prev.rlock
    case RUnlock(_, prev, _) => prev.active && prev.loaded && !prev.rlock
    case RLock(wk, cancel, prev) => !cancel && prev.active && !prev.loaded && !prev.wlock && (wk.Some? || prev.wake)
    case RClear(_, cancel, prev) => !cancel && Resting(prev) && prev.wake
    case RPut(_, cancel, prev) => !cancel && Resting(prev)
    case RCas(_, cancel, prev) => !cancel && Resting(prev)
    case RUndoClear(_, cancel) => !cancel
    case RUndo(_, cancel) => !cancel
    case RWake(_, _, dropped) => !dropped
    case _ => ReaderArms(r)
  }

  predicate Resting(prev: Word) { prev.active && !prev.loaded && !prev.wlock && !prev.rlock }

  predicate ReaderArms(r: ReaderPc) { !(r.RSwap? || r.RTakeLast? || r.RCancel?) }

  // The value cell is full exactly while a value waits to be taken, or is about to be announced.
  predicate ValueCell(s: State) {
    && !s.value.Broken?
    && (s.value.Full? <==>
        (s.word.loaded && !s.r.RTakeWaker? && !s.r.RUnlock?) || s.w.WFast? || s.w.WOr?)
    && (s.w.WFast? || s.w.WOr? ==> s.value == Full(s.w.v))
  }

  // The waker cell is full exactly when WAKE says so, or as the lock holder has left it.
  predicate WakerCell(s: State) {
    && !s.waker.Broken?
    && (s.waker.Full? <==>
        if WriterLocks(s.w) then
          match s.w
          case WTake(_, _, prev) => prev.wake
          case WPut(_, _, _) => false
          case WUndo(_) => false
          case WRelease(_, _) => false
          case FPut(_, _, _) => false
          case FUndo(_, _) => false
          case _ => true
        else if ReaderStores(s.r) then s.r.RClear? || s.r.RCas? || s.r.RUndoClear?
        else if ReaderLocks(s.r) then !s.r.RUnlock? && s.r.prev.wake
        else s.word.wake)
    && (s.w.WCas? || s.w.WClear? || s.w.FCas? || s.w.FUndoClear? ==> s.waker == Full(s.w.k))
    && (s.r.RCas? || s.r.RUndoClear? ==> s.waker == Full(s.r.k))
  }

  // While the writer holds the lock, the word is the one it installed unless the reader came by.
  function Installed(prev: Word): Word { prev.(loaded := true, wlock := true, wake := true) }

  predicate WriterView(s: State) {
    match s.w
    case WTake(_, _, prev) => s.word.loaded && !s.word.rlock ==> s.word == Installed(prev)
    case WPut(_, prev, _) => s.word.loaded && !s.word.rlock ==> s.word == Installed(prev)
    case WCas(_, prev, _) => s.word.loaded && !s.word.rlock ==> s.word == Installed(prev)
    case _ => true
  }

  // What the reader has taken out but not returned yet.
  function InHand(r: ReaderPc): seq<Payload> {
    if r.RTakeWaker? || r.RUnlock? || r.RWake? then [r.v] else []
  }

  // The value that waits in the cell, announced by LOADED.
  function InCell(s: State): seq<Payload> {
    if s.word.loaded && s.value.Full? then [s.value.value] else []
  }

  predicate Fifo(s: State) {
    && s.accepted == s.received + InHand(s.r) + InCell(s)
    && (s.w.WIdle? && s.w.result.FlushReady? ==> InCell(s) == [])
  }

  // The writer has taken the reader's waker `k` out, or is about to, and has yet to call it.
  predicate WriterOwes(s: State, k: Waker) {
    match s.w
    case WTake(_, _, prev) => prev.wake && s.waker == Full(k)
    case WPut(_, _, held) => held == Some(k)
    case WCas(_, _, held) => held == Some(k)
    case WRelease(_, held) => held == Some(k)
    case WWake(held) => held == Some(k)
    case _ => false
  }

  // The reader has taken the writer's waker `k` out, or is about to, and has yet to call it.
  predicate ReaderOwes(s: State, k: Waker) {
    match s.r
    case RTake(prev) => !prev.wlock && prev.wake && s.waker == Full(k)
    case RTakeWaker(_, prev) => !prev.wlock && prev.wake && s.waker == Full(k)
    case RUnlock(_, _, held) => held == Some(k)
    case RWake(_, held, _) => held == Some(k)
    case _ => false
  }

  // Waker `k` lies in the unlocked cell, on the side of the protocol that `loaded` names.
  predicate Registered(s: State, k: Waker, loaded: bool) {
    && s.waker == Full(k)
    && s.word.wake && !s.word.wlock
    && s.word.loaded == loaded
  }

  predicate NoLostWake(s: State) {
    && (s.r.RIdle? && s.rAsk.owed.Some? ==> Registered(s, s.rAsk.owed.value, false) || WriterOwes(s, s.rAsk.owed.value))
    && (s.w.WIdle? && s.wAsk.owed.Some? ==> Registered(s, s.wAsk.owed.value, true) || ReaderOwes(s, s.wAsk.owed.value))
    && (s.r.RIdle? && WriterLocks(s.w) && !s.word.loaded ==> s.rAsk.owed == None)
  }

  // In the middle of a call, only the waker given to that call can be owed.
  predicate Needs(s: State) {
    && (s.rAsk.owed.Some? ==>
        match s.r
        case RLoad(wk, _) => wk == s.rAsk.owed
        case RAcquire(wk, _, _) => wk == s.rAsk.owed || wk == None
        case RSelf(wk) => wk == s.rAsk.owed
        case RLock(wk, _, _) => wk == s.rAsk.owed
        case RClear(wk, _, _) => wk == s.rAsk.owed
        case RPut(k, _, _) => Some(k) == s.rAsk.owed
        case RCas(k, _, _) => Some(k) == s.rAsk.owed
        case RUndoClear(_, _) => s.word.loaded
        case RUndo(_, _) => s.word.loaded
        case _ => true)
    && (s.wAsk.owed.Some? ==>
        match s.w
        case WLoad(_, wk, _) => wk == s.wAsk.owed
        case WStore(_, wk, _, _) => wk == s.wAsk.owed
        case WFast(_, _, _) => false
        case WOr(_, wk, _) => wk == s.wAsk.owed
        case WTake(wk, _, _) => wk == s.wAsk.owed
        case WRelease(_, _) => false
        case WWake(held) =>
          || held == s.wAsk.owed
          || Registered(s, s.wAsk.owed.value, true) || ReaderOwes(s, s.wAsk.owed.value)
        case _ => s.w.WIdle? || WaitingFor(s.w, s.wAsk.owed.value))
  }

  // The writer is in the middle of a call that was given the waker `k`.
  predicate WaitingFor(w: WriterPc, k: Waker) {
    match w
    case WPut(j, _, _) => j == k
    case WCas(j, _, _) => j == k
    case WClear(j, _) => j == k
    case WUndo(j) => j == k
    case FLoad(j, _) => j == k
    case FSelf(j) => j == k
    case FClear(j, _, _) => j == k
    case FPut(j, _, _) => j == k
    case FCas(j, _, _) => j == k
    case FUndoClear(j, _) => j == k
    case FUndo(j, _) => j == k
    case FAcquire(j, _, _) => j == k
    case _ => true
  }

  predicate Locks(s: State) {
    && Bits(s) && WriterLocals(s.w) && ReaderLocals(s.r)
    && ValueCell(s) && WakerCell(s) && WriterView(s)
  }

  predicate Wakes(s: State) { Needs(s) && NoLostWake(s) }

  predicate Inv(s: State) { Locks(s) && Fifo(s) && Wakes(s) }

  // --- Every step keeps the invariant, a few program counters at a time

  lemma WriteAnnounceKeepsLocks(s: State, spurious: bool)
    requires Locks(s) && (s.w.WIdle? || s.w.WLoad? || s.w.WStore? || s.w.WFast? || s.w.WOr? || s.w.WTake?)
    ensures Locks(WriteStep(s, spurious))
  {
  }

  lemma WriteAnnounceKeeps(s: State, spurious: bool)
    requires Inv(s) && (s.w.WIdle? || s.w.WLoad? || s.w.WStore? || s.w.WFast? || s.w.WOr? || s.w.WTake?)
    ensures Inv(WriteStep(s, spurious))
  {
    WriteAnnounceKeepsLocks(s, spurious);
  }

  lemma WriteHandOverKeepsLocks(s: State, spurious: bool)
    requires Locks(s) && (s.w.WPut? || s.w.WCas? || s.w.WClear? || s.w.WUndo? || s.w.WRelease?)
    ensures Locks(WriteStep(s, spurious))
  {
  }

  lemma WriteHandOverKeeps(s: State, spurious: bool)
    requires Inv(s) && (s.w.WPut? || s.w.WCas? || s.w.WClear? || s.w.WUndo? || s.w.WRelease?)
    ensures Inv(WriteStep(s, spurious))
  {
    WriteHandOverKeepsLocks(s, spurious);
  }

  lemma WriteCallKeepsLocks(s: State, spurious: bool)
    requires Locks(s) && s.w.WWake?
    ensures Locks(WriteStep(s, spurious))
  {
  }

  lemma WriteCallKeepsFifo(s: State, spurious: bool)
    requires Fifo(s) && s.w.WWake?
    ensures Fifo(WriteStep(s, spurious))
  {
  }

  lemma WriteCallKeeps(s: State, spurious: bool)
    requires Inv(s) && s.w.WWake?
    ensures Inv(WriteStep(s, spurious))
  {
    WriteCallKeepsLocks(s, spurious);
    WriteCallKeepsFifo(s, spurious);
  }

  lemma FlushLoadKeepsLocks(s: State, spurious: bool)
    requires Locks(s) && s.w.FLoad?
    ensures Locks(FlushStep(s, spurious))
  {
  }

  lemma FlushLookKeepsLocks(s: State, spurious: bool)
    requires Locks(s) && (s.w.FLoad? || s.w.FFinish? || s.w.FSelf?)
    ensures Locks(FlushStep(s, spurious))
  {
    if s.w.FLoad? { FlushLoadKeepsLocks(s, spurious); }
  }

  lemma FlushLookKeeps(s: State, spurious: bool)
    requires Inv(s) && (s.w.FLoad? || s.w.FFinish? || s.w.FSelf?)
    ensures Inv(FlushStep(s, spurious))
  {
    FlushLookKeepsLocks(s, spurious);
  }

  lemma FlushRegisterKeepsLocks(s: State, spurious: bool)
    requires Locks(s) && (s.w.FClear? || s.w.FPut? || s.w.FCas?)
    ensures Locks(FlushStep(s, spurious))
  {
  }

  lemma FlushRegisterKeeps(s: State, spurious: bool)
    requires Inv(s) && (s.w.FClear? || s.w.FPut? || s.w.FCas?)
    ensures Inv(FlushStep(s, spurious))
  {
    FlushRegisterKeepsLocks(s, spurious);
  }

  lemma FlushUndoKeepsLocks(s: State, spurious: bool)
    requires Locks(s) && (s.w.FUndoClear? || s.w.FUndo?)
    ensures Locks(FlushStep(s, spurious))
  {
  }

  lemma FlushUndoKeeps(s: State, spurious: bool)
    requires Inv(s) && (s.w.FUndoClear? || s.w.FUndo?)
    ensures Inv(FlushStep(s, spurious))
  {
    FlushUndoKeepsLocks(s, spurious);
  }

  lemma FlushAcquireKeepsLocks(s: State, spurious: bool)
    requires Locks(s) && (s.w.FAcquire?)
    ensures Locks(FlushStep(s, spurious))
  {
  }

  lemma FlushAcquireKeeps(s: State, spurious: bool)
    requires Inv(s) && (s.w.FAcquire?)
    ensures Inv(FlushStep(s, spurious))
  {
    FlushAcquireKeepsLocks(s, spurious);
  }

  lemma ReadLookKeepsLocks(s: State, spurious: bool)
    requires Locks(s) && (s.r.RIdle? || s.r.RLoad? || s.r.RAcquire?)
    ensures Locks(ReaderStep(s, spurious))
  {
  }

  lemma ReadLookKeeps(s: State, spurious: bool)
    requires Inv(s) && (s.r.RIdle? || s.r.RLoad? || s.r.RAcquire?)
    ensures Inv(ReaderStep(s, spurious))
  {
    ReadLookKeepsLocks(s, spurious);
  }

  lemma ReadTakeKeepsLocks(s: State, spurious: bool)
    requires Locks(s) && (s.r.RTake? || s.r.RTakeWaker? || s.r.RUnlock?)
    ensures Locks(ReaderStep(s, spurious))
  {
  }

  lemma ReadTakeKeeps(s: State, spurious: bool)
    requires Inv(s) && (s.r.RTake? || s.r.RTakeWaker? || s.r.RUnlock?)
    ensures Inv(ReaderStep(s, spurious))
  {
    ReadTakeKeepsLocks(s, spurious);
  }

  lemma ReadSelfKeepsLocks(s: State, spurious: bool)
    requires Locks(s) && s.r.RSelf?
    ensures Locks(ReaderStep(s, spurious))
  {
  }

  lemma ReadCallKeepsLocks(s: State, spurious: bool)
    requires Locks(s) && (s.r.RWake? || s.r.RSelf?)
    ensures Locks(ReaderStep(s, spurious))
  {
    if s.r.RSelf? { ReadSelfKeepsLocks(s, spurious); }
  }

  lemma ReadWakeKeeps(s: State, spurious: bool)
    requires Inv(s) && s.r.RWake?
    ensures Inv(ReaderStep(s, spurious))
  {
    ReadCallKeepsLocks(s, spurious);
    ReadWakeKeepsFifo(s, spurious);
  }

  lemma ReadWakeKeepsFifo(s: State, spurious: bool)
    requires Fifo(s) && s.r.RWake?
    ensures Fifo(ReaderStep(s, spurious))
  {
  }

  lemma ReadSelfKeeps(s: State, spurious: bool)
    requires Inv(s) && s.r.RSelf?
    ensures Inv(ReaderStep(s, spurious))
  {
    ReadCallKeepsLocks(s, spurious);
  }

  lemma ReadClearKeepsLocks(s: State, spurious: bool)
    requires Locks(s) && s.r.RClear?
    ensures Locks(ReaderStep(s, spurious))
  {
  }

  lemma ReadLockKeepsLocks(s: State, spurious: bool)
    requires Locks(s) && (s.r.RLock? || s.r.RClear?)
    ensures Locks(ReaderStep(s, spurious))
  {
    if s.r.RClear? { ReadClearKeepsLocks(s, spurious); }
  }

  lemma ReadLockKeeps(s: State, spurious: bool)
    requires Inv(s) && (s.r.RLock? || s.r.RClear?)
    ensures Inv(ReaderStep(s, spurious))
  {
    ReadLockKeepsLocks(s, spurious);
  }

  lemma ReadRegisterKeepsLocks(s: State, spurious: bool)
    requires Locks(s) && (s.r.RPut? || s.r.RCas? || s.r.RUndoClear? || s.r.RUndo?)
    ensures Locks(ReaderStep(s, spurious))
  {
  }

  lemma ReadRegisterKeeps(s: State, spurious: bool)
    requires Inv(s) && (s.r.RPut? || s.r.RCas? || s.r.RUndoClear? || s.r.RUndo?)
    ensures Inv(ReaderStep(s, spurious))
  {
    ReadRegisterKeepsLocks(s, spurious);
  }

  lemma WriterKeeps(s: State, spurious: bool)
    requires Inv(s)
    ensures Inv(WriterStep(s, spurious))
  {
    if InFlush(s.w) {
      FlushKeeps(s, spurious);
    } else {
      WriteKeeps(s, spurious);
    }
  }

  lemma WriteKeeps(s: State, spurious: bool)
    requires Inv(s) && !InFlush(s.w)
    ensures Inv(WriteStep(s, spurious))
  {
    if s.w.WIdle? || s.w.WLoad? || s.w.WStore? || s.w.WFast? || s.w.WOr? || s.w.WTake? {
      WriteAnnounceKeeps(s, spurious);
    } else if s.w.WPut? || s.w.WCas? || s.w.WClear? || s.w.WUndo? || s.w.WRelease? {
      WriteHandOverKeeps(s, spurious);
    } else {
      WriteCallKeeps(s, spurious);
    }
  }

  lemma FlushKeeps(s: State, spurious: bool)
    requires Inv(s) && InFlush(s.w)
    ensures Inv(FlushStep(s, spurious))
  {
    if s.w.FLoad? || s.w.FFinish? || s.w.FSelf? {
      FlushLookKeeps(s, spurious);
    } else if s.w.FClear? || s.w.FPut? || s.w.FCas? {
      FlushRegisterKeeps(s, spurious);
    } else if s.w.FUndoClear? || s.w.FUndo? {
      FlushUndoKeeps(s, spurious);
    } else {
      FlushAcquireKeeps(s, spurious);
    }
  }

  lemma ReaderKeeps(s: State, spurious: bool)
    requires Inv(s)
    ensures Inv(ReaderStep(s, spurious))
  {
    if s.r.RIdle? || s.r.RLoad? || s.r.RAcquire? {
      ReadLookKeeps(s, spurious);
    } else if s.r.RTake? || s.r.RTakeWaker? || s.r.RUnlock? {
      ReadTakeKeeps(s, spurious);
    } else if s.r.RWake? {
      ReadWakeKeeps(s, spurious);
    } else if s.r.RSelf? {
      ReadSelfKeeps(s, spurious);
    } else if s.r.RLock? || s.r.RClear? {
      ReadLockKeeps(s, spurious);
    } else {
      ReadRegisterKeeps(s, spurious);
    }
  }

  lemma StepKeeps(s: State, e: Event)
    requires Inv(s) && OpenEvent(e)
    ensures Inv(Next(s, e))
  {
    match e
    case WriterMove(spurious) => WriterKeeps(s, spurious);
    case ReaderMove(spurious) => ReaderKeeps(s, spurious);
    case _ =>
  }

  // A waker that is no longer owed, though its call said "pending", was called since the call began.
  predicate Answered(s: State) {
    && Answer(s.rAsk, s.woken, FinalR(s.r))
    && Answer(s.wAsk, s.woken, FinalW(s.w))
  }

  predicate FinalW(w: WriterPc) { w.WIdle? && w.result != WriteOk && w.result != FlushPending }

  predicate FinalR(r: ReaderPc) { r.RIdle? && r.result != ReadPending }

  predicate Answer(a: Ask, woken: seq<Waker>, final: bool) {
    && a.mark <= |woken|
    && (a.owed.Some? ==> a.owed == a.wk)
    && (a.wk.Some? && a.owed.None? && !final ==> a.wk.value in Since(a, woken))
  }

  // The wakers called since the call that `a` belongs to began.
  function Since(a: Ask, woken: seq<Waker>): seq<Waker> {
    if a.mark <= |woken| then woken[a.mark..] else []
  }

  // A step that calls no waker forgets a debt only by returning something final.
  predicate Quiet(s: State, s': State) {
    && s'.woken == s.woken
    && KeepsAsk(s.wAsk, s'.wAsk, FinalW(s.w), FinalW(s'.w))
    && KeepsAsk(s.rAsk, s'.rAsk, FinalR(s.r), FinalR(s'.r))
  }

  predicate KeepsAsk(a: Ask, a': Ask, final: bool, final': bool) {
    && a'.wk == a.wk && a'.mark == a.mark && (final ==> final')
    && (a'.owed == a.owed || (a'.owed.None? && final'))
  }

  lemma WakeAnswers(s: State, k: Option<Waker>)
    requires Answered(s)
    ensures Answered(WakeIf(s, k))
  {
    if k.Some? {
      assert (s.woken + [k.value])[s.wAsk.mark..] == s.woken[s.wAsk.mark..] + [k.value];
      assert (s.woken + [k.value])[s.rAsk.mark..] == s.woken[s.rAsk.mark..] + [k.value];
    }
  }

  // The waker that the next step of each side calls, if any.
  function WriterCalls(w: WriterPc): Option<Waker> {
    match w case WWake(held) => held case FSelf(k) => Some(k) case _ => None
  }

  function ReaderCalls(r: ReaderPc): Option<Waker> {
    match r case RWake(_, held, _) => held case RSelf(wk) => wk case _ => None
  }

  lemma WriteIsQuiet(s: State, spurious: bool)
    requires !InFlush(s.w)
    ensures Quiet(WakeIf(s, WriterCalls(s.w)), WriteStep(s, spurious))
  {
  }

  lemma FlushIsQuiet(s: State, spurious: bool)
    requires InFlush(s.w)
    ensures Quiet(WakeIf(s, WriterCalls(s.w)), FlushStep(s, spurious))
  {
  }

  // The reader is back at the head of its loop.
  lemma LoopIsQuiet(s: State, wk: Option<Waker>, cancel: bool, prev: Word)
    requires !s.r.RIdle?
    ensures Quiet(s, ReadLoop(s, wk, cancel, prev))
  {
  }

  predicate Loops(r: ReaderPc) { r.RLoad? || r.RAcquire? || r.RCancel? || r.RLock? || r.RUndo? }

  lemma ReadLoopIsQuiet(s: State, spurious: bool)
    requires Loops(s.r)
    ensures Quiet(s, ReaderStep(s, spurious))
  {
    match s.r
    case RLoad(wk, cancel) => LoopIsQuiet(s, wk, cancel, s.word);
    case RAcquire(wk, cancel, prev) => LoopIsQuiet(s, wk, cancel, s.word);
    case RCancel(wk, prev) => LoopIsQuiet(s, wk, true, s.word);
    case RLock(wk, cancel, prev) => LoopIsQuiet(s, wk, cancel, s.word);
    case RUndo(wk, cancel) =>
      var prev := s.word.(rlock := false, wlock := false, wake := false);
      LoopIsQuiet(s.(word := prev), None, cancel, prev);
  }

  lemma ReadIsQuiet(s: State, spurious: bool)
    ensures Quiet(WakeIf(s, ReaderCalls(s.r)), ReaderStep(s, spurious))
  {
    if Loops(s.r) { ReadLoopIsQuiet(s, spurious); }
  }

  lemma StepAnswers(s: State, e: Event)
    requires Answered(s) && OpenEvent(e)
    ensures Answered(Next(s, e))
  {
    match e
    case WriterMove(spurious) =>
      WakeAnswers(s, WriterCalls(s.w));
      if InFlush(s.w) { FlushIsQuiet(s, spurious); } else { WriteIsQuiet(s, spurious); }
    case ReaderMove(spurious) => WakeAnswers(s, ReaderCalls(s.r)); ReadIsQuiet(s, spurious);
    case _ =>
  }

  lemma {:induction false} RunKeeps(log: seq<Event>, run: seq<State>)
    requires OpenRun(log, run)
    ensures Inv(run[|log|]) && Answered(run[|log|])
  {
    if log == [] {
      FreshHolds(run[0]);
    } else {
      Shorter(INIT, Next, log, run);
      RunKeeps(log[..|log| - 1], run[..|log|]);
      StepKeeps(run[|log| - 1], log[|log| - 1]);
      StepAnswers(run[|log| - 1], log[|log| - 1]);
    }
  }

  lemma FreshHolds(s: State)
    requires s == INIT
    ensures Inv(s) && Answered(s)
  {
  }

  // --- What every reachable state of the open channel guarantees

  /** A side whose last call ended in "pending" has been called since that call began, or
      its waker lies unlocked in the cell, or the other side has it and is about to call it. */
  lemma NoLostWakeUp(log: seq<Event>, run: seq<State>, k: Waker)
    requires OpenRun(log, run)
    ensures var s := run[|log|];
      s.r == RIdle(ReadPending) && s.rAsk.wk == Some(k) ==>
        k in Since(s.rAsk, s.woken) || Registered(s, k, false) || WriterOwes(s, k)
    ensures var s := run[|log|];
      s.w in {WIdle(WriteOk), WIdle(FlushPending)} && s.wAsk.wk == Some(k) ==>
        k in Since(s.wAsk, s.woken) || Registered(s, k, true) || ReaderOwes(s, k)
  {
    RunKeeps(log, run);
  }

  /** Both sides can never be waiting at once with neither of them called. */
  lemma NoStandstill(log: seq<Event>, run: seq<State>, j: Waker, k: Waker)
    requires OpenRun(log, run)
    requires var s := run[|log|]; s.r == RIdle(ReadPending) && s.rAsk.wk == Some(j)
    requires var s := run[|log|]; s.w in {WIdle(WriteOk), WIdle(FlushPending)} && s.wAsk.wk == Some(k)
    ensures var s := run[|log|]; j in Since(s.rAsk, s.woken) || k in Since(s.wAsk, s.woken)
  {
    RunKeeps(log, run);
  }

  /** Exactly once and in order: what `read` returned, then what the reader holds, then what
      waits in the cell, is what `write` accepted; a finished `flush` leaves nothing waiting. */
  lemma ExactlyOnceInOrder(log: seq<Event>, run: seq<State>)
    requires OpenRun(log, run)
    ensures var s := run[|log|];
      && s.accepted == s.received + InHand(s.r) + InCell(s)
      && s.received <= s.accepted && |s.accepted| <= |s.received| + 2
      && (s.w.WIdle? && s.w.result.FlushReady? ==> s.accepted == s.received + InHand(s.r))
  {
    RunKeeps(log, run);
  }

  // The next step of the side accesses the waker cell, or the value cell.
  predicate WriterUsesWaker(w: WriterPc) {
    (w.WTake? && w.prev.wake) || w.WPut? || w.WClear? || w.FClearLast? || w.FClear? || w.FPut? || w.FUndoClear?
  }

  predicate ReaderUsesWaker(r: ReaderPc) {
    (r.RTakeWaker? && !r.prev.wlock && r.prev.wake) || r.RClear? || r.RPut? || r.RUndoClear?
  }

  predicate WriterUsesValue(w: WriterPc) { w.WStore? || w.WReject? || w.FTakeBack? }

  predicate ReaderUsesValue(r: ReaderPc) { r.RTake? || r.RTakeLast? }

  /** No cell is ever used in the wrong occupancy or by both sides at once, the "Invalid
      channel state" panic is never reached, and no call reports a dropped peer. */
  lemma CellsAreOwned(log: seq<Event>, run: seq<State>)
    requires OpenRun(log, run)
    ensures var s := run[|log|];
      && !s.value.Broken? && !s.waker.Broken? && !s.w.WPanic?
      && !(WriterUsesWaker(s.w) && ReaderUsesWaker(s.r))
      && !(WriterUsesValue(s.w) && ReaderUsesValue(s.r))
      && (s.w.WIdle? && s.w.result.WriteErr? ==> !s.w.result.dropped)
      && (s.w.WIdle? && s.w.result.FlushReady? ==> s.w.result == FlushReady(None, false))
      && (s.r.RIdle? && s.r.result.ReadReady? ==> !s.r.result.dropped)
  {
    RunKeeps(log, run);
  }
}
