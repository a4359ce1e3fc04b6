/** Two threads that block on the two ends of a channel: each polls its end, parks while the
    answer is Pending, and is unparked by its waker.  Their calls overlap in every way. */
module ChannelWait {
  import opened Cells
  import opened ChannelSteps
  import opened ChannelOpen
  import opened Runs

  const READER: Waker := 0
  const WRITER: Waker := 1

  /** A thread between blocking calls, in a call that does not wait, or in the loop of
      `block_on`: about to poll again, polling, about to park, asleep. */
  datatype Phase = Outside | Trying | Again | Calling | Parking | Sleeping

  datatype Thread = Thread(phase: Phase, token: bool)

  datatype Both = Both(ch: State, r: Thread, w: Thread)

  const START := Both(INIT, Thread(Outside, false), Thread(Outside, false))

  datatype Step =
    | Receive                        // `recv` polls, for the first time or again
    | TryReceive
    | ReaderOperates(spurious: bool)
    | ReaderParks
    | ReaderAwakes
    | ReaderGivesUp                  // the timeout of its park has passed
    | Send(v: Payload)               // the first poll of a `send`
    | TrySend(v: Payload)
    | PollFlush
    | WriterOperates(spurious: bool)
    | WriterParks
    | WriterAwakes
    | WriterGivesUp
    | Stray(reader: bool)            // an unpark that comes from elsewhere

  // An unpark for every call of a thread's waker since `ch`.
  function Unparked(t: Thread, ch: State, ch': State, k: Waker): Thread {
    t.(token := t.token || (|ch.woken| <= |ch'.woken| && k in ch'.woken[|ch.woken|..]))
  }

  // One event of the channel.
  function Happens(b: Both, e: Event): Both {
    var ch := Next(b.ch, e);
    Both(ch, Unparked(b.r, b.ch, ch, READER), Unparked(b.w, b.ch, ch, WRITER))
  }

  function Parks(t: Thread): Thread {
    if !t.phase.Parking? then t else if t.token then Thread(Again, false) else t.(phase := Sleeping)
  }

  function Awakes(t: Thread): Thread {
    if t.phase.Sleeping? && t.token then Thread(Again, false) else t
  }

  function GivesUp(t: Thread): Thread {
    if t.phase.Sleeping? && !t.token then t.(phase := Outside) else t
  }

  predicate PendingW(w: WriterPc) { w in {WIdle(WriteOk), WIdle(FlushPending)} }

  // Where a thread goes on once its call has returned.
  function AfterRead(p: Phase, r: ReaderPc): Phase {
    if !r.RIdle? then p
    else if p.Calling? then (if r.result == ReadPending then Parking else Outside)
    else Outside
  }

  function AfterWrite(p: Phase, w: WriterPc): Phase {
    if !w.WIdle? then p
    else if p.Calling? then (if PendingW(w) then Parking else Outside)
    else Outside
  }

  predicate InCall(p: Phase) { p.Calling? || p.Trying? }

  function ReaderTurn(b: Both, p: Phase, e: Event): Both {
    var b' := Happens(b, e);
    b'.(r := b'.r.(phase := AfterRead(p, b'.ch.r)))
  }

  function WriterTurn(b: Both, p: Phase, e: Event): Both {
    var b' := Happens(b, e);
    b'.(w := b'.w.(phase := AfterWrite(p, b'.ch.w)))
  }

  function Go(b: Both, st: Step): Both {
    match st
    case Receive =>
      if b.r.phase.Outside? || b.r.phase.Again? then ReaderTurn(b, Calling, CallRead(Some(READER), false)) else b
    case TryReceive => if b.r.phase.Outside? then ReaderTurn(b, Trying, CallRead(None, false)) else b
    case ReaderOperates(spurious) =>
      if InCall(b.r.phase) then ReaderTurn(b, b.r.phase, ReaderMove(spurious)) else b
    case ReaderParks => b.(r := Parks(b.r))
    case ReaderAwakes => b.(r := Awakes(b.r))
    case ReaderGivesUp => b.(r := GivesUp(b.r))
    case Send(v) => if b.w.phase.Outside? then WriterTurn(b, Calling, CallWrite(v, Some(WRITER), false)) else b
    case TrySend(v) => if b.w.phase.Outside? then WriterTurn(b, Trying, CallWrite(v, None, false)) else b
    case PollFlush => if b.w.phase.Again? then WriterTurn(b, Calling, CallFlush(WRITER, false)) else b
    case WriterOperates(spurious) =>
      if InCall(b.w.phase) then WriterTurn(b, b.w.phase, WriterMove(spurious)) else b
    case WriterParks => b.(w := Parks(b.w))
    case WriterAwakes => b.(w := Awakes(b.w))
    case WriterGivesUp => b.(w := GivesUp(b.w))
    case Stray(reader) =>
      if reader then b.(r := b.r.(token := true)) else b.(w := b.w.(token := true))
  }

  // --- Invariant

  // A thread in its loop that has no token was not called since its last poll began.
  predicate Uncalled(t: Thread, a: Ask, woken: seq<Waker>, k: Waker) {
    t.phase in {Calling, Parking, Sleeping} ==>
      a.wk == Some(k) && a.mark <= |woken| && (!t.token ==> k !in Since(a, woken))
  }

  predicate ReaderFits(b: Both) {
    && (b.ch.r.RIdle? <==> !InCall(b.r.phase))
    && (b.r.phase.Parking? || b.r.phase.Sleeping? ==> b.ch.r == RIdle(ReadPending))
    && Uncalled(b.r, b.ch.rAsk, b.ch.woken, READER)
  }

  predicate WriterFits(b: Both) {
    && (b.ch.w.WIdle? <==> !InCall(b.w.phase))
    && (b.w.phase.Parking? || b.w.phase.Sleeping? ==> PendingW(b.ch.w))
    && Uncalled(b.w, b.ch.wAsk, b.ch.woken, WRITER)
  }

  predicate Fits(b: Both) { Inv(b.ch) && Answered(b.ch) && ReaderFits(b) && WriterFits(b) }

  // What an event of the channel leaves as it is: the ask of a side that makes no call, and
  // the wakers called before.
  predicate Extends(ch: State, ch': State) { ch.woken <= ch'.woken }

  predicate SameAsk(a: Ask, a': Ask) { a'.wk == a.wk && a'.mark == a.mark }

  lemma EventExtends(ch: State, e: Event)
    ensures Extends(ch, Next(ch, e))
    ensures !e.CallRead? ==> SameAsk(ch.rAsk, Next(ch, e).rAsk)
    ensures !e.CallWrite? && !e.CallFlush? ==> SameAsk(ch.wAsk, Next(ch, e).wAsk)
  {
    match e
    case WriterMove(spurious) => if InFlush(ch.w) { FlushIsQuiet(ch, spurious); } else { WriteIsQuiet(ch, spurious); }
    case ReaderMove(spurious) => ReadIsQuiet(ch, spurious);
    case _ =>
  }

  // A thread that makes no call stays uncalled, or has been unparked.
  lemma StaysUncalled(t: Thread, a: Ask, a': Ask, ch: State, ch': State, k: Waker)
    requires Uncalled(t, a, ch.woken, k) && Extends(ch, ch') && SameAsk(a, a')
    ensures Uncalled(Unparked(t, ch, ch', k), a', ch'.woken, k)
  {
    if t.phase in {Calling, Parking, Sleeping} && !Unparked(t, ch, ch', k).token {
      assert Since(a', ch'.woken) == Since(a, ch.woken) + ch'.woken[|ch.woken|..];
    }
  }

  // The other side of the channel stands still.
  lemma OneSideMoves(ch: State, e: Event)
    ensures e.CallRead? || e.ReaderMove? ==> Next(ch, e).w == ch.w
    ensures e.CallWrite? || e.CallFlush? || e.WriterMove? ==> Next(ch, e).r == ch.r
  {
  }

  lemma ReaderTurnFits(b: Both, p: Phase, e: Event)
    requires Fits(b) && OpenEvent(e)
    requires if e.ReaderMove? then p == b.r.phase && InCall(p)
             else b.ch.r.RIdle? && e == CallRead(if p.Calling? then Some(READER) else None, false) && InCall(p)
    ensures Fits(ReaderTurn(b, p, e))
  {
    var ch' := Next(b.ch, e);
    StepKeeps(b.ch, e);
    StepAnswers(b.ch, e);
    EventExtends(b.ch, e);
    OneSideMoves(b.ch, e);
    StaysUncalled(b.w, b.ch.wAsk, ch'.wAsk, b.ch, ch', WRITER);
    if e.ReaderMove? {
      StaysUncalled(b.r, b.ch.rAsk, ch'.rAsk, b.ch, ch', READER);
    }
  }

  lemma WriterTurnFits(b: Both, p: Phase, e: Event)
    requires Fits(b) && OpenEvent(e)
    requires if e.WriterMove? then p == b.w.phase && InCall(p)
             else b.ch.w.WIdle? && InCall(p) && (p.Calling? ==> Next(b.ch, e).wAsk.wk == Some(WRITER))
                  && (e.CallWrite? || e.CallFlush?)
    ensures Fits(WriterTurn(b, p, e))
  {
    var ch' := Next(b.ch, e);
    StepKeeps(b.ch, e);
    StepAnswers(b.ch, e);
    EventExtends(b.ch, e);
    OneSideMoves(b.ch, e);
    StaysUncalled(b.r, b.ch.rAsk, ch'.rAsk, b.ch, ch', READER);
    if e.WriterMove? {
      StaysUncalled(b.w, b.ch.wAsk, ch'.wAsk, b.ch, ch', WRITER);
    }
  }

  lemma GoFits(b: Both, st: Step)
    requires Fits(b)
    ensures Fits(Go(b, st))
  {
    match st
    case Receive =>
      if b.r.phase.Outside? || b.r.phase.Again? { ReaderTurnFits(b, Calling, CallRead(Some(READER), false)); }
    case TryReceive => if b.r.phase.Outside? { ReaderTurnFits(b, Trying, CallRead(None, false)); }
    case ReaderOperates(spurious) =>
      if InCall(b.r.phase) { ReaderTurnFits(b, b.r.phase, ReaderMove(spurious)); }
    case Send(v) => if b.w.phase.Outside? { WriterTurnFits(b, Calling, CallWrite(v, Some(WRITER), false)); }
    case TrySend(v) => if b.w.phase.Outside? { WriterTurnFits(b, Trying, CallWrite(v, None, false)); }
    case PollFlush => if b.w.phase.Again? { WriterTurnFits(b, Calling, CallFlush(WRITER, false)); }
    case WriterOperates(spurious) =>
      if InCall(b.w.phase) { WriterTurnFits(b, b.w.phase, WriterMove(spurious)); }
    case _ =>
  }

  lemma {:induction false} RunFits(log: seq<Step>, run: seq<Both>)
    requires IsRun(START, Go, log, run)
    ensures Fits(run[|log|])
  {
    if log == [] {
      FreshHolds(INIT);
    } else {
      Shorter(START, Go, log, run);
      RunFits(log[..|log| - 1], run[..|log|]);
      GoFits(run[|log| - 1], log[|log| - 1]);
    }
  }

  // --- What every run of the two threads guarantees

  predicate Stopped(t: Thread) { t.phase.Sleeping? && !t.token }

  /** A thread that sleeps without a token is about to be unparked by the other side, or its
      waker lies in the cell for the other side to find. */
  lemma SleepersAreOwed(log: seq<Step>, run: seq<Both>)
    requires IsRun(START, Go, log, run)
    ensures var b := run[|log|]; Stopped(b.r) ==> Registered(b.ch, READER, false) || WriterOwes(b.ch, READER)
    ensures var b := run[|log|]; Stopped(b.w) ==> Registered(b.ch, WRITER, true) || ReaderOwes(b.ch, WRITER)
  {
    RunFits(log, run);
  }

  /** The two threads never wait for each other. */
  lemma NeverBothStopped(log: seq<Step>, run: seq<Both>)
    requires IsRun(START, Go, log, run)
    ensures !(Stopped(run[|log|].r) && Stopped(run[|log|].w))
  {
    RunFits(log, run);
  }

  /** A stopped thread has a reason: with the writer between calls, a reader sleeps only when it
      has received everything that was accepted; with the reader between calls, a writer
      sleeps only when its value still waits in the cell. */
  lemma SleepersHaveAReason(log: seq<Step>, run: seq<Both>)
    requires IsRun(START, Go, log, run)
    ensures var b := run[|log|]; Stopped(b.r) && !InCall(b.w.phase) ==> b.ch.received == b.ch.accepted
    ensures var b := run[|log|]; Stopped(b.w) && !InCall(b.r.phase) ==>
      b.ch.value.Full? && b.ch.accepted == b.ch.received + [b.ch.value.value]
  {
    RunFits(log, run);
  }
}
