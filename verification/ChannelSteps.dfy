/** The single-producer single-consumer channel as a step system: one atomic operation or
    one cell access per step, one program counter for each side.  `write`, `flush` and
    `read` are modelled with every arm they have. */
module ChannelSteps {
  import opened Cells

  type Payload = int
  type Waker = nat

  /** The state byte, bit by bit: ACTIVE 1, LOADED 2, WLOCK 4, RLOCK 8, WAKE 16. */
  datatype Word = Word(active: bool, loaded: bool, wlock: bool, rlock: bool, wake: bool)

  const DONE := Word(false, false, false, false, false)
  const FRESH := Word(true, false, false, false, false)

  // What the last completed call of each side returned.
  datatype WriterResult =
    | NoCall
    | WriteOk
    | WriteErr(back: Payload, dropped: bool)
    | FlushPending
    | FlushReady(value: Option<Payload>, dropped: bool)

  datatype ReaderResult =
    | NoRead
    | ReadPending
    | ReadReady(value: Option<Payload>, dropped: bool)

  // Where the writing side stands.  W.. is inside `write`, F.. inside `flush`.
  datatype WriterPc =
    | WIdle(result: WriterResult)
    | WLoad(v: Payload, wk: Option<Waker>, fin: bool)
    | WStore(v: Payload, wk: Option<Waker>, fin: bool, seen: Word)
    | WFast(v: Payload, fin: bool, seen: Word)
    | WOr(v: Payload, wk: Option<Waker>, fin: bool)
    | WTake(wk: Option<Waker>, fin: bool, prev: Word)
    | WPut(k: Waker, prev: Word, held: Option<Waker>)
    | WCas(k: Waker, prev: Word, held: Option<Waker>)
    | WClear(k: Waker, found: Word)
    | WUndo(k: Waker)
    | WRelease(fin: bool, held: Option<Waker>)
    | WWake(held: Option<Waker>)
    | WReject
    | WPanic
    | FLoad(k: Waker, fin: bool)
    | FClearLast(fin: bool, prev: Word)
    | FReset(fin: bool, prev: Word)
    | FFinish(fin: bool)
    | FGone
    | FTakeBack
    | FSelf(k: Waker)
    | FClear(k: Waker, fin: bool, prev: Word)
    | FPut(k: Waker, fin: bool, prev: Word)
    | FCas(k: Waker, fin: bool, prev: Word)
    | FUndoClear(k: Waker, fin: bool)
    | FUndo(k: Waker, fin: bool)
    | FAcquire(k: Waker, fin: bool, prev: Word)

  // Where the reading side stands, inside `read`.
  datatype ReaderPc =
    | RIdle(result: ReaderResult)
    | RLoad(wk: Option<Waker>, cancel: bool)
    | RSwap(prev: Word)
    | RTakeLast
    | RAcquire(wk: Option<Waker>, cancel: bool, prev: Word)
    | RTake(prev: Word)
    | RTakeWaker(v: Payload, prev: Word)
    | RUnlock(v: Payload, prev: Word, held: Option<Waker>)
    | RWake(v: Payload, held: Option<Waker>, dropped: bool)
    | RCancel(wk: Option<Waker>, prev: Word)
    | RSelf(wk: Option<Waker>)
    | RLock(wk: Option<Waker>, cancel: bool, prev: Word)
    | RClear(wk: Option<Waker>, cancel: bool, prev: Word)
    | RPut(k: Waker, cancel: bool, prev: Word)
    | RCas(k: Waker, cancel: bool, prev: Word)
    | RUndoClear(k: Waker, cancel: bool)
    | RUndo(wk: Option<Waker>, cancel: bool)

  /** A waker handed to a call: `mark` counts the wake-ups made before the call began, and
      `owed` keeps the waker until it is called or the call returns something final. */
  datatype Ask = Ask(wk: Option<Waker>, mark: nat, owed: Option<Waker>)

  // The value given to the last call of `write`, and how many were accepted before it.
  datatype Given = Given(v: Payload, mark: nat)

  /** Shared memory, both program counters, and history: the waker of each side's current
      or last call, the values taken over by `write`, the values returned by `read`, the
      wakers called, in order, and what the last `write` was given. */
  datatype State = State(
    word: Word, value: Maybe<Payload>, waker: Maybe<Waker>,
    w: WriterPc, r: ReaderPc,
    wAsk: Ask, rAsk: Ask,
    accepted: seq<Payload>, received: seq<Payload>, woken: seq<Waker>, given: Given)

  const NO_ASK := Ask(None, 0, None)
  const INIT := State(FRESH, Empty, Empty, WIdle(NoCall), RIdle(NoRead), NO_ASK, NO_ASK, [], [], [],
                      Given(0, 0))

  datatype Event =
    | CallWrite(v: Payload, wk: Option<Waker>, fin: bool)
    | CallFlush(k: Waker, fin: bool)
    | CallRead(wk: Option<Waker>, cancel: bool)
    | WriterMove(spurious: bool)
    | ReaderMove(spurious: bool)

  function Wake(s: State, k: Waker): State {
    s.(woken := s.woken + [k],
       wAsk := s.wAsk.(owed := if s.wAsk.owed == Some(k) then None else s.wAsk.owed),
       rAsk := s.rAsk.(owed := if s.rAsk.owed == Some(k) then None else s.rAsk.owed))
  }

  function WakeIf(s: State, k: Option<Waker>): State {
    if k.Some? then Wake(s, k.value) else s
  }

  function ReturnW(s: State, result: WriterResult): State {
    s.(w := WIdle(result),
       wAsk := s.wAsk.(owed := if result == WriteOk || result == FlushPending then s.wAsk.owed else None))
  }

  function ReturnR(s: State, result: ReaderResult): State {
    s.(r := RIdle(result),
       rAsk := s.rAsk.(owed := if result == ReadPending then s.rAsk.owed else None),
       received := if result.ReadReady? && result.value.Some?
                   then s.received + [result.value.value] else s.received)
  }

  /** The loop head of `flush`: which operation comes next for a given local `prev`. */
  function FlushHead(k: Waker, fin: bool, locked: bool, prev: Word): WriterPc {
    if !prev.loaded && !prev.rlock then
      if locked then (if prev.wake then FClearLast(fin, prev) else FReset(fin, prev)) else FFinish(fin)
    else if !prev.active then (if fin then FTakeBack else FGone)
    else if prev.rlock then FSelf(k)
    else if locked then (if prev.wake then FClear(k, fin, prev) else FPut(k, fin, prev))
    else FAcquire(k, fin, prev)
  }

  /** The loop head of `read`: which operation comes next for a given local `prev`. */
  function ReadHead(wk: Option<Waker>, cancel: bool, prev: Word): ReaderPc {
    if !prev.active then (if prev.loaded then RSwap(prev) else RIdle(ReadReady(None, true)))
    else if prev.loaded then RAcquire(wk, cancel, prev)
    else if cancel then RCancel(wk, prev)
    else if wk.Some? || prev.wake then (if prev.wlock then RSelf(wk) else RLock(wk, cancel, prev))
    else RIdle(ReadReady(None, false))
  }

  // Move the reader to the loop head; two of its arms return at once.
  function ReadLoop(s: State, wk: Option<Waker>, cancel: bool, prev: Word): State {
    var pc := ReadHead(wk, cancel, prev);
    if pc.RIdle? then ReturnR(s, pc.result) else s.(r := pc)
  }

  predicate InFlush(w: WriterPc) {
    w.FLoad? || w.FClearLast? || w.FReset? || w.FFinish? || w.FGone? || w.FTakeBack? || w.FSelf?
    || w.FClear? || w.FPut? || w.FCas? || w.FUndoClear? || w.FUndo? || w.FAcquire?
  }

  /** One operation of the writing side, wherever its program counter stands. */
  function WriterStep(s: State, spurious: bool): State {
    if InFlush(s.w) then FlushStep(s, spurious) else WriteStep(s, spurious)
  }

  /** The operations of `write`. */
  function WriteStep(s: State, spurious: bool): State
    requires !InFlush(s.w)
  {
    match s.w
    case WIdle(_) => s
    case WPanic => s
    case WLoad(v, wk, fin) =>
      if !s.word.active then ReturnW(s, WriteErr(v, true))
      else if s.word.loaded then ReturnW(s, WriteErr(v, false))
      else s.(w := WStore(v, wk, fin, s.word))
    case WStore(v, wk, fin, seen) =>
      s.(value := s.value.Store(v),
         w := if wk.None? && !seen.wake then WFast(v, fin, seen) else WOr(v, wk, fin))
    case WFast(v, fin, seen) =>
      if s.word == seen && !spurious then
        ReturnW(Accept(s.(word := seen.(loaded := true, active := seen.active && !fin))), WriteOk)
      else s.(w := WOr(v, None, fin))
    case WOr(v, wk, fin) =>
      var prev := s.word;
      Accept(s.(word := prev.(loaded := true, wlock := true, wake := true),
                w := if prev.wlock then WWake(wk) else WTake(wk, fin, prev)))
    case WTake(wk, fin, prev) =>
      var held := if prev.wake && s.waker.Full? then Some(s.waker.value) else None;
      s.(waker := if prev.wake then s.waker.Take() else s.waker,
         w := if wk.Some? then WPut(wk.value, prev, held) else WRelease(fin, held))
    case WPut(k, prev, held) =>
      s.(waker := s.waker.Store(k), w := WCas(k, prev, held))
    case WCas(k, prev, held) =>
      if s.word == prev.(loaded := true, wlock := true, wake := true) then
        s.(word := prev.(loaded := true, wake := true), w := WWake(held))
      else s.(w := WClear(k, s.word))
    case WClear(k, found) =>
      s.(waker := s.waker.Take(),
         w := if !found.loaded || found.rlock then WUndo(k)
              else if !found.active then WReject else WPanic)
    case WUndo(k) =>
      s.(word := s.word.(wlock := false, wake := false), w := WWake(Some(k)))
    case WRelease(fin, held) =>
      s.(word := s.word.(wlock := false, wake := false, active := s.word.active && !fin),
         w := if s.word.active then WWake(held) else WReject)
    case WWake(held) => ReturnW(WakeIf(s, held), WriteOk)
    case WReject =>
      var v := if s.value.Full? then s.value.value else 0;
      ReturnW(s.(value := s.value.Take()), WriteErr(v, true))
  }

  /** The operations of `flush`. */
  function FlushStep(s: State, spurious: bool): State
    requires InFlush(s.w)
  {
    match s.w
    case FLoad(k, fin) => s.(w := FlushHead(k, fin, false, s.word))
    case FClearLast(fin, prev) => s.(waker := s.waker.Take(), w := FReset(fin, prev))
    case FReset(fin, prev) =>
      ReturnW(s.(word := s.word.(wlock := false, wake := false, active := s.word.active && !fin)),
              FlushReady(None, !prev.active))
    case FFinish(fin) =>
      ReturnW(s.(word := s.word.(active := s.word.active && !fin)), FlushReady(None, !s.word.active))
    case FGone => s.(word := DONE, w := FTakeBack)
    case FTakeBack =>
      var v := if s.value.Full? then s.value.value else 0;
      ReturnW(s.(value := s.value.Take()), FlushReady(Some(v), true))
    case FSelf(k) => ReturnW(Wake(s, k), FlushPending)
    case FClear(k, fin, prev) => s.(waker := s.waker.Take(), w := FPut(k, fin, prev))
    case FPut(k, fin, prev) => s.(waker := s.waker.Store(k), w := FCas(k, fin, prev))
    case FCas(k, fin, prev) =>
      if s.word == prev.(wlock := true, wake := true) && !spurious then
        ReturnW(s.(word := prev.(wake := true)), FlushPending)
      else s.(w := FUndoClear(k, fin))
    case FUndoClear(k, fin) => s.(waker := s.waker.Take(), w := FUndo(k, fin))
    case FUndo(k, fin) =>
      var prev := s.word.(wlock := false, wake := false);
      s.(word := prev, w := FlushHead(k, fin, false, prev))
    case FAcquire(k, fin, prev) =>
      if s.word == prev && !spurious then
        s.(word := prev.(wlock := true, wake := true), w := FlushHead(k, fin, true, prev))
      else if s.word.wlock then s.(w := FSelf(k))
      else s.(w := FlushHead(k, fin, false, s.word))
  }

  function Accept(s: State): State {
    if s.value.Full? then s.(accepted := s.accepted + [s.value.value]) else s
  }

  /** One operation of the reading side, wherever its program counter stands. */
  function ReaderStep(s: State, spurious: bool): State {
    match s.r
    case RIdle(_) => s
    case RLoad(wk, cancel) => ReadLoop(s, wk, cancel, s.word)
    case RSwap(prev) => s.(word := prev.(loaded := false), r := RTakeLast)
    case RTakeLast =>
      var v := if s.value.Full? then s.value.value else 0;
      ReturnR(s.(value := s.value.Take()), ReadReady(Some(v), true))
    case RAcquire(wk, cancel, prev) =>
      if s.word == prev && !spurious then
        s.(word := prev.(rlock := true, wlock := true), r := RTake(prev))
      else ReadLoop(s, wk, cancel, s.word)
    case RTake(prev) =>
      var v := if s.value.Full? then s.value.value else 0;
      s.(value := s.value.Take(), r := RTakeWaker(v, prev))
    case RTakeWaker(v, prev) =>
      if !prev.wlock && prev.wake then
        s.(waker := s.waker.Take(),
           r := RUnlock(v, prev, if s.waker.Full? then Some(s.waker.value) else None))
      else s.(r := RUnlock(v, prev, None))
    case RUnlock(v, prev, held) =>
      s.(word := s.word.(loaded := false, rlock := false,
                         wlock := s.word.wlock && prev.wlock, wake := s.word.wake && prev.wlock),
         r := RWake(v, held, !s.word.active))
    case RWake(v, held, dropped) => ReturnR(WakeIf(s, held), ReadReady(Some(v), dropped))
    case RCancel(wk, prev) =>
      if s.word == prev then ReturnR(s.(word := prev.(active := false)), ReadReady(None, false))
      else ReadLoop(s, wk, true, s.word)
    case RSelf(wk) => ReturnR(WakeIf(s, wk), ReadPending)
    case RLock(wk, cancel, prev) =>
      if s.word == prev && !spurious then
        s.(word := prev.(rlock := true, wlock := true, wake := true),
           r := if prev.wake then RClear(wk, cancel, prev)
                else if wk.Some? then RPut(wk.value, cancel, prev) else RUndo(None, cancel))
      else ReadLoop(s, wk, cancel, s.word)
    case RClear(wk, cancel, prev) =>
      s.(waker := s.waker.Take(),
         r := if wk.Some? then RPut(wk.value, cancel, prev) else RUndo(None, cancel))
    case RPut(k, cancel, prev) => s.(waker := s.waker.Store(k), r := RCas(k, cancel, prev))
    case RCas(k, cancel, prev) =>
      if s.word == prev.(rlock := true, wlock := true, wake := true) then
        ReturnR(s.(word := prev.(wake := true)), ReadPending)
      else s.(r := RUndoClear(k, cancel))
    case RUndoClear(k, cancel) => s.(waker := s.waker.Take(), r := RUndo(Some(k), cancel))
    case RUndo(wk, cancel) =>
      var prev := s.word.(rlock := false, wlock := false, wake := false);
      var s' := s.(word := prev);
      if wk.None? && prev.active && !prev.loaded then ReturnR(s', ReadReady(None, false))
      else ReadLoop(s', None, cancel, prev)
  }

  /** One labelled step.  A label that does not apply leaves the state as it is. */
  function Next(s: State, e: Event): State {
    match e
    case CallWrite(v, wk, fin) =>
      if s.w.WIdle? then
        s.(w := WLoad(v, wk, fin), wAsk := Ask(wk, |s.woken|, wk), given := Given(v, |s.accepted|))
      else s
    case CallFlush(k, fin) => if s.w.WIdle? then s.(w := FLoad(k, fin), wAsk := Ask(Some(k), |s.woken|, Some(k))) else s
    case CallRead(wk, cancel) => if s.r.RIdle? then s.(r := RLoad(wk, cancel), rAsk := Ask(wk, |s.woken|, wk)) else s
    case WriterMove(spurious) => WriterStep(s, spurious)
    case ReaderMove(spurious) => ReaderStep(s, spurious)
  }
}
