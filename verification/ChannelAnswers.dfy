/** What the calls of the open channel answer: exactly when a value is there, exactly what became
    of the value they were given.  The answers are tied to the history of the run and to the
    word at the step that gives them, over every interleaving. */
module ChannelAnswers {
  import opened Cells
  import opened ChannelSteps
  import opened ChannelOpen
  import opened Runs

  // --- `read`

  // A call that was given a waker has it still, or has seen LOADED.
  predicate Asking(s: State) {
    s.rAsk.wk.Some? ==>
      match s.r
      case RLoad(wk, _) => wk.Some?
      case RLock(wk, _, _) => wk.Some?
      case RClear(wk, _, _) => wk.Some?
      case RUndoClear(_, _) => s.word.loaded
      case RUndo(_, _) => s.word.loaded
      case RIdle(ReadReady(value, _)) => value.Some?
      case _ => true
  }

  lemma ReaderKeepsAsking(s: State, spurious: bool)
    requires Locks(s) && Asking(s)
    ensures Asking(ReaderStep(s, spurious))
  {
  }

  lemma WriteKeepsAsking(s: State, spurious: bool)
    requires Locks(s) && Asking(s) && !InFlush(s.w)
    ensures Asking(WriteStep(s, spurious))
  {
  }

  lemma FlushKeepsAsking(s: State, spurious: bool)
    requires Locks(s) && Asking(s) && InFlush(s.w)
    ensures Asking(FlushStep(s, spurious))
  {
  }

  // --- `write`

  // The last call of `write` has handed its value over, or has not.
  predicate Kept(s: State) { |s.accepted| == s.given.mark }

  predicate Took(s: State) { |s.accepted| == s.given.mark + 1 && s.accepted[s.given.mark] == s.given.v }

  predicate Giving(s: State) {
    match s.w
    case WLoad(v, _, _) => v == s.given.v && Kept(s)
    case WStore(v, _, _, _) => v == s.given.v && Kept(s)
    case WFast(v, _, _) => v == s.given.v && Kept(s)
    case WOr(v, _, _) => v == s.given.v && Kept(s)
    case WTake(_, _, _) => Took(s)
    case WPut(_, _, _) => Took(s)
    case WCas(_, _, _) => Took(s)
    case WClear(_, _) => Took(s)
    case WUndo(_) => Took(s)
    case WRelease(_, _) => Took(s)
    case WWake(_) => Took(s)
    case WIdle(WriteErr(back, _)) => back == s.given.v && Kept(s)
    case WIdle(WriteOk) => Took(s)
    case _ => true
  }

  lemma WriteKeepsGiving(s: State, spurious: bool)
    requires Locks(s) && Giving(s) && !InFlush(s.w)
    ensures Giving(WriteStep(s, spurious))
  {
  }

  lemma FlushKeepsGiving(s: State, spurious: bool)
    requires Locks(s) && InFlush(s.w)
    ensures Giving(FlushStep(s, spurious))
  {
  }

  lemma ReaderKeepsGiving(s: State, spurious: bool)
    requires Giving(s)
    ensures Giving(ReaderStep(s, spurious))
  {
    ReaderLeavesTheGift(s, spurious);
  }

  lemma ReaderLeavesTheGift(s: State, spurious: bool)
    ensures var s' := ReaderStep(s, spurious); s'.w == s.w && s'.accepted == s.accepted && s'.given == s.given
  {
  }

  lemma StepKeepsAnswers(s: State, e: Event)
    requires Locks(s) && Asking(s) && Giving(s) && OpenEvent(e)
    ensures Asking(Next(s, e)) && Giving(Next(s, e))
  {
    match e
    case WriterMove(spurious) =>
      if InFlush(s.w) {
        FlushKeepsAsking(s, spurious);
        FlushKeepsGiving(s, spurious);
      } else {
        WriteKeepsAsking(s, spurious);
        WriteKeepsGiving(s, spurious);
      }
    case ReaderMove(spurious) =>
      ReaderKeepsAsking(s, spurious);
      ReaderKeepsGiving(s, spurious);
    case _ =>
  }

  lemma {:induction false} RunKeepsAnswers(log: seq<Event>, run: seq<State>)
    requires OpenRun(log, run)
    ensures Asking(run[|log|]) && Giving(run[|log|])
  {
    if log != [] {
      var front := log[..|log| - 1];
      Shorter(INIT, Next, log, run);
      assert forall i :: 0 <= i < |front| ==> front[i] == log[i];
      RunKeepsAnswers(front, run[..|log|]);
      RunKeeps(front, run[..|log|]);
      StepKeepsAnswers(run[|log| - 1], log[|log| - 1]);
    }
  }

  // --- What every run of the open channel guarantees

  /** A `read` that was given a waker and answers Ready brings a value. */
  lemma ReadyBringsAValue(log: seq<Event>, run: seq<State>)
    requires OpenRun(log, run)
    ensures var s := run[|log|]; s.r.RIdle? && s.r.result.ReadReady? && s.rAsk.wk.Some? ==> s.r.result.value.Some?
  {
    RunKeepsAnswers(log, run);
  }

  /** `write` answers what it did: after an error the value has come back and nothing was
      accepted; after Ok exactly this value was. */
  lemma WriteAnswersWhatItDid(log: seq<Event>, run: seq<State>)
    requires OpenRun(log, run)
    ensures var s := run[|log|]; s.w.WIdle? && s.w.result.WriteErr? ==>
      s.w.result.back == s.given.v && |s.accepted| == s.given.mark
    ensures var s := run[|log|]; s.w == WIdle(WriteOk) ==>
      |s.accepted| == s.given.mark + 1 && s.accepted[s.given.mark] == s.given.v
  {
    RunKeepsAnswers(log, run);
  }

  // --- What a step may answer, by the word it finds

  lemma ReaderTakesIt(s: State, spurious: bool)
    requires Locks(s) && s.word.loaded && !s.r.RIdle? && !s.r.RSelf?
    ensures var r := ReaderStep(s, spurious).r;
      !r.RSelf? && (r.RIdle? ==> r.result.ReadReady? && r.result.value.Some?)
  {
  }

  /** While a value is loaded no step of `read` answers without it, or turns to calling its own
      waker instead: a lost compare-exchange, a waker half stored, a lock held by the writer,
      all lead back to the value. */
  lemma ReadTakesWhatItSees(log: seq<Event>, run: seq<State>, spurious: bool)
    requires OpenRun(log, run)
    requires var s := run[|log|]; s.word.loaded && !s.r.RIdle? && !s.r.RSelf?
    ensures var r := ReaderStep(run[|log|], spurious).r;
      !r.RSelf? && (r.RIdle? ==> r.result.ReadReady? && r.result.value.Some?)
  {
    RunKeeps(log, run);
    ReaderTakesIt(run[|log|], spurious);
  }

  lemma WriterRefusesOnlyFull(s: State, spurious: bool)
    requires Locks(s) && !s.w.WIdle? && !InFlush(s.w)
    ensures var w := WriteStep(s, spurious).w; w.WIdle? ==> w.result == WriteOk || (s.word.loaded && w.result.WriteErr?)
  {
  }

  lemma FlushWaitsOnlyForTheValue(s: State, spurious: bool)
    requires Locks(s) && InFlush(s.w)
    ensures var w := FlushStep(s, spurious).w;
      && (w.FSelf? && !s.w.FSelf? ==> ReaderTakes(s.r) || ReaderStores(s.r))
      && (w == WIdle(FlushPending) && !s.w.FSelf? ==> s.word.loaded && s.waker == Full(s.w.k))
      && (w.WIdle? && w.result != FlushPending ==> w.result == FlushReady(None, false) && !s.word.loaded)
  {
  }

  /** `write` refuses only a channel that is loaded; `flush` waits only with the value in the
      cell and its waker beside it, or for a reader in the middle of its call after calling its
      own waker; and it is done only when the value has left. */
  lemma WriterWaitsWithReason(log: seq<Event>, run: seq<State>, spurious: bool)
    requires OpenRun(log, run) && !run[|log|].w.WIdle?
    ensures var s := run[|log|]; var w := WriterStep(s, spurious).w;
      && (w.WIdle? && w.result.WriteErr? ==> s.word.loaded)
      && (w.FSelf? && !s.w.FSelf? ==> ReaderTakes(s.r) || ReaderStores(s.r))
      && (w == WIdle(FlushPending) && !s.w.FSelf? ==> s.word.loaded && s.waker == Full(s.w.k))
      && (w.WIdle? && w.result.FlushReady? ==> !s.word.loaded)
  {
    RunKeeps(log, run);
    if InFlush(run[|log|].w) {
      FlushWaitsOnlyForTheValue(run[|log|], spurious);
    } else {
      WriterRefusesOnlyFull(run[|log|], spurious);
    }
  }
}
