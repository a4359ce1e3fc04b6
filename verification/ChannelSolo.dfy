/** The two descriptions of a call agree: the step system, left alone from a channel at
    rest, takes a call to exactly the result of its whole-call meaning. */
module ChannelSolo {
  import opened Cells
  import opened ChannelSteps
  import opened ChannelCalls

  function Mem(s: State): Memory { Memory(s.word, s.value, s.waker) }

  ghost predicate Quiet(s: State) { s.w.WIdle? && s.r.RIdle? && AtRest(Mem(s)) }

  function Writer(s: State, n: nat): State
    decreases n
  {
    if n == 0 then s else Writer(WriterStep(s, false), n - 1)
  }

  function Reader(s: State, n: nat): State
    decreases n
  {
    if n == 0 then s else Reader(ReaderStep(s, false), n - 1)
  }

  function Calling(woken: seq<Waker>, k: Option<Waker>): seq<Waker> {
    if k.Some? then woken + [k.value] else woken
  }

  // One or two steps at a time, so that a run of a call unfolds in small pieces.
  lemma TwoR(s: State, n: nat)
    ensures Reader(s, n + 2) == Reader(ReaderStep(ReaderStep(s, false), false), n)
  {
  }

  lemma OneW(s: State, n: nat)
    ensures Writer(s, n + 1) == Writer(WriterStep(s, false), n)
  {
  }

  lemma OneR(s: State, n: nat)
    ensures Reader(s, n + 1) == Reader(ReaderStep(s, false), n)
  {
  }

  // The first half of a `write` that finds room: up to the point where LOADED is set.
  lemma SoloStore(s: State, v: Payload, wk: Option<Waker>, fin: bool, n: nat)
    requires Quiet(s) && s.word.active && !s.word.loaded
    ensures var s0 := Next(s, CallWrite(v, wk, fin));
      Writer(s0, n + 2) == Writer(s0.(value := Full(v),
        w := if wk.None? && !s.word.wake then WFast(v, fin, s.word) else WOr(v, wk, fin)), n)
  {
    var s0 := Next(s, CallWrite(v, wk, fin));
    OneW(s0, n + 1);
    var s1 := s0.(w := WStore(v, wk, fin, s.word));
    assert WriterStep(s0, false) == s1;
    OneW(s1, n);
  }

  // The second half when there is a waker to call or to leave behind.
  lemma SoloAnnounce(s: State, v: Payload, wk: Option<Waker>, fin: bool)
    requires Resting(s.word) && s.value == Full(v) && s.w == WOr(v, wk, fin)
    requires !s.waker.Broken? && (s.waker.Full? <==> s.word.wake)
    ensures var t := Writer(s, 6);
      && t.w == WIdle(WriteOk) && t.r == s.r && t.value == Full(v)
      && t.word == Word(wk.Some? || !fin, true, false, false, wk.Some?)
      && t.waker == (if wk.Some? then Full(wk.value) else Empty)
      && t.woken == Calling(s.woken, Call(Mem(s)))
  {
    OneW(s, 5);
    var s1 := Accept(s).(word := s.word.(loaded := true, wlock := true, wake := true), w := WTake(wk, fin, s.word));
    assert WriterStep(s, false) == s1;
    OneW(s1, 4);
    var s2 := s1.(waker := Empty,
                  w := if wk.Some? then WPut(wk.value, s.word, Call(Mem(s))) else WRelease(fin, Call(Mem(s))));
    assert WriterStep(s1, false) == s2;
    SoloFinish(s2);
  }

  // The last operation of `write`: the waker that was found is called.
  lemma SoloCall(s: State, n: nat)
    requires s.w.WWake?
    ensures Writer(s, n + 1) == ReturnW(WakeIf(s, s.w.held), WriteOk)
  {
    OneW(s, n);
    Idle(WriterStep(s, false), n);
  }

  lemma SoloFinish(s: State)
    requires (s.w.WPut? && Resting(s.w.prev)) || s.w.WRelease?
    requires s.waker == Empty && s.word == Word(true, true, true, false, true)
    ensures var t := Writer(s, 4); var wk := if s.w.WPut? then Some(s.w.k) else None;
      && t.w == WIdle(WriteOk) && t.r == s.r && t.value == s.value
      && t.word == Word(wk.Some? || !s.w.fin, true, false, false, wk.Some?)
      && t.waker == (if wk.Some? then Full(wk.value) else Empty)
      && t.woken == Calling(s.woken, s.w.held)
  {
    OneW(s, 3);
    if s.w.WPut? {
      var s1 := s.(waker := Full(s.w.k), w := WCas(s.w.k, s.w.prev, s.w.held));
      assert WriterStep(s, false) == s1;
      OneW(s1, 2);
      var s2 := s1.(word := Word(true, true, false, false, true), w := WWake(s.w.held));
      assert WriterStep(s1, false) == s2;
      SoloCall(s2, 1);
    } else {
      var s1 := s.(word := Word(!s.w.fin, true, false, false, false), w := WWake(s.w.held));
      assert WriterStep(s, false) == s1;
      SoloCall(s1, 2);
    }
  }

  predicate Resting(w: Word) { w.active && !w.loaded && !w.wlock && !w.rlock }

  lemma SoloRefuse(s: State, n: nat)
    requires s.w.WLoad? && (!s.word.active || s.word.loaded)
    ensures Writer(s, n + 1) == ReturnW(s, WriteErr(s.w.v, !s.word.active))
  {
    OneW(s, n);
    Idle(WriterStep(s, false), n);
  }

  lemma SoloFast(s: State, n: nat)
    requires s.w.WFast? && s.word == s.w.seen && s.value.Full?
    ensures Writer(s, n + 1) ==
      ReturnW(Accept(s.(word := s.word.(loaded := true, active := s.word.active && !s.w.fin))), WriteOk)
  {
    OneW(s, n);
    Idle(WriterStep(s, false), n);
  }

  lemma WriteRuns(s: State, v: Payload, wk: Option<Waker>, fin: bool)
    requires Quiet(s)
    ensures var t := Writer(Next(s, CallWrite(v, wk, fin)), 8);
      var (m, result, k) := WriteCall(Mem(s), v, wk, fin);
      t.w == WIdle(result) && Mem(t) == m && t.woken == Calling(s.woken, k) && t.r == s.r
  {
    var s0 := Next(s, CallWrite(v, wk, fin));
    if !s.word.active || s.word.loaded {
      SoloRefuse(s0, 7);
    } else {
      SoloStore(s, v, wk, fin, 6);
      if wk.None? && !s.word.wake {
        SoloFast(s0.(value := Full(v), w := WFast(v, fin, s.word)), 5);
      } else {
        SoloAnnounce(s0.(value := Full(v), w := WOr(v, wk, fin)), v, wk, fin);
      }
    }
  }

  lemma {:induction false} Idle(s: State, n: nat)
    ensures s.w.WIdle? ==> Writer(s, n) == s
    ensures s.r.RIdle? ==> Reader(s, n) == s
  {
    if n > 0 {
      if s.w.WIdle? { Idle(WriterStep(s, false), n - 1); }
      if s.r.RIdle? { Idle(ReaderStep(s, false), n - 1); }
    }
  }

  lemma FlushRuns(s: State, k: Waker, fin: bool)
    requires Quiet(s)
    ensures var t := Writer(Next(s, CallFlush(k, fin)), 6);
      var (m, result, called) := FlushCall(Mem(s), k, fin);
      t.w == WIdle(result) && Mem(t) == m && t.woken == Calling(s.woken, called) && t.r == s.r
  {
    var s0 := Next(s, CallFlush(k, fin));
    OneW(s0, 5);
    var s1 := s0.(w := FlushHead(k, fin, false, s.word));
    assert WriterStep(s0, false) == s1;
    if !s.word.loaded || !s.word.active {
      SoloEnd(s1);
    } else {
      OneW(s1, 4);
      var s2 := s1.(word := s.word.(wlock := true, wake := true),
                    w := if s.word.wake then FClear(k, fin, s.word) else FPut(k, fin, s.word));
      assert WriterStep(s1, false) == s2;
      SoloRegister(s2);
    }
  }

  // The value was read, or the reader has gone.
  lemma SoloEnd(s: State)
    requires s.w.FFinish? || ((s.w.FGone? || s.w.FTakeBack?) && s.value.Full?)
    ensures var t := Writer(s, 5);
      t == if s.w.FFinish? then ReturnW(s.(word := s.word.(active := s.word.active && !s.w.fin)),
                                        FlushReady(None, !s.word.active))
           else ReturnW(s.(word := if s.w.FGone? then DONE else s.word, value := Empty),
                        FlushReady(Some(s.value.value), true))
  {
    if s.w.FFinish? {
      OneW(s, 4);
      Idle(WriterStep(s, false), 4);
    } else if s.w.FGone? {
      OneW(s, 4);
      var s1 := s.(word := DONE, w := FTakeBack);
      assert WriterStep(s, false) == s1;
      SoloTakeBack(s1, 3);
    } else {
      SoloTakeBack(s, 4);
    }
  }

  lemma SoloTakeBack(s: State, n: nat)
    requires s.w.FTakeBack? && s.value.Full?
    ensures Writer(s, n + 1) == ReturnW(s.(value := Empty), FlushReady(Some(s.value.value), true))
  {
    OneW(s, n);
    Idle(WriterStep(s, false), n);
  }

  lemma SoloRegister(s: State)
    requires (s.w.FClear? && s.waker.Full?) || (s.w.FPut? && s.waker == Empty)
    requires s.w.prev.loaded && s.w.prev.active && s.word == s.w.prev.(wlock := true, wake := true)
    ensures var t := Writer(s, 4);
      t == ReturnW(s.(word := s.w.prev.(wake := true), waker := Full(s.w.k)), FlushPending)
  {
    if s.w.FClear? {
      OneW(s, 3);
      var s1 := s.(waker := Empty, w := FPut(s.w.k, s.w.fin, s.w.prev));
      assert WriterStep(s, false) == s1;
      SoloPut(s1, 1);
    } else {
      SoloPut(s, 2);
    }
  }

  lemma SoloPut(s: State, n: nat)
    requires s.w.FPut? && s.waker == Empty && s.word == s.w.prev.(wlock := true, wake := true)
    ensures Writer(s, n + 2) == ReturnW(s.(word := s.w.prev.(wake := true), waker := Full(s.w.k)), FlushPending)
  {
    OneW(s, n + 1);
    var s1 := s.(waker := Full(s.w.k), w := FCas(s.w.k, s.w.fin, s.w.prev));
    assert WriterStep(s, false) == s1;
    OneW(s1, n);
    Idle(WriterStep(s1, false), n);
  }

  lemma ReadRuns(s: State, wk: Option<Waker>, cancel: bool)
    requires Quiet(s)
    ensures var t := Reader(Next(s, CallRead(wk, cancel)), 6);
      var (m, result, called) := ReadCall(Mem(s), wk, cancel);
      t.r == RIdle(result) && Mem(t) == m && t.woken == Calling(s.woken, called) && t.w == s.w
  {
    var s0 := Next(s, CallRead(wk, cancel));
    TwoR(s0, 4);
    var s1 := ReaderStep(s0, false);
    var s2 := ReaderStep(s1, false);
    if s.word.loaded && s.word.active {
      assert s2 == s0.(word := s.word.(rlock := true, wlock := true), r := RTake(s.word));
      SoloTake(s2);
    } else if s.word.loaded {
      Idle(ReaderStep(s2, false), 3);
    } else if s.word.active && !cancel && (wk.Some? || s.word.wake) {
      var locked := s.word.(rlock := true, wlock := true, wake := true);
      assert s2 == s0.(word := locked, r := if s.word.wake then RClear(wk, cancel, s.word)
                                            else RPut(wk.value, cancel, s.word));
      SoloLeave(s2, wk);
    } else {
      Idle(s2, 4);
    }
  }

  lemma SoloTake(s: State)
    requires s.r.RTake? && s.value.Full? && s.word == s.r.prev.(rlock := true, wlock := true)
    requires s.r.prev == FRESH.(loaded := true, wake := s.waker.Full?) && !s.waker.Broken?
    ensures var t := Reader(s, 4);
      && t.r == RIdle(ReadReady(Some(s.value.value), false)) && t.w == s.w
      && Mem(t) == EMPTY && t.woken == Calling(s.woken, Call(Mem(s)))
  {
    TwoR(s, 2);
    var s2 := ReaderStep(ReaderStep(s, false), false);
    assert s2 == s.(value := Empty, waker := Empty, r := RUnlock(s.value.value, s.r.prev, Call(Mem(s))));
    TwoR(s2, 0);
  }

  lemma SoloLeave(s: State, wk: Option<Waker>)
    requires (s.r.RClear? && s.r.wk == wk && s.waker.Full?) || (s.r.RPut? && Some(s.r.k) == wk && s.waker == Empty)
    requires s.r.prev == FRESH.(wake := s.r.RClear?) && s.word == FRESH.(rlock := true, wlock := true, wake := true)
    ensures var t := Reader(s, 4);
      && t.r == RIdle(if wk.Some? then ReadPending else ReadReady(None, false)) && t.w == s.w
      && Mem(t) == Memory(FRESH.(wake := wk.Some?), s.value, if wk.Some? then Full(wk.value) else Empty)
      && t.woken == s.woken
  {
    if s.r.RPut? {
      SoloRest(s, 2);
    } else {
      OneR(s, 3);
      var s1 := s.(waker := Empty,
                   r := if wk.Some? then RPut(wk.value, s.r.cancel, s.r.prev) else RUndo(None, s.r.cancel));
      assert ReaderStep(s, false) == s1;
      if wk.Some? {
        SoloRest(s1, 1);
      } else {
        OneR(s1, 2);
        Idle(ReaderStep(s1, false), 2);
      }
    }
  }

  // The waker goes into the cell, and the lock is given up.
  lemma SoloRest(s: State, n: nat)
    requires s.r.RPut? && s.waker == Empty && s.word == s.r.prev.(rlock := true, wlock := true, wake := true)
    ensures Reader(s, n + 2) == ReturnR(s.(word := s.r.prev.(wake := true), waker := Full(s.r.k)), ReadPending)
  {
    OneR(s, n + 1);
    var s1 := s.(waker := Full(s.r.k), r := RCas(s.r.k, s.r.cancel, s.r.prev));
    assert ReaderStep(s, false) == s1;
    OneR(s1, n);
    Idle(ReaderStep(s1, false), n);
  }
  // Left alone, a side gets to the end of its call, the other side standing still.
  ghost predicate WriterEnds(s: State, result: WriterResult, m: Memory, woken: seq<Waker>) {
    exists n: nat :: var t := Writer(s, n);
      t.w == WIdle(result) && Mem(t) == m && t.woken == woken && t.r == s.r
  }

  ghost predicate ReaderEnds(s: State, result: ReaderResult, m: Memory, woken: seq<Waker>) {
    exists n: nat :: var t := Reader(s, n);
      t.r == RIdle(result) && Mem(t) == m && t.woken == woken && t.w == s.w
  }

  /** `write`, run alone, ends as its whole-call meaning says. */
  lemma SoloWrite(s: State, v: Payload, wk: Option<Waker>, fin: bool)
    requires Quiet(s)
    ensures var (m, result, k) := WriteCall(Mem(s), v, wk, fin);
      WriterEnds(Next(s, CallWrite(v, wk, fin)), result, m, Calling(s.woken, k))
  {
    WriteRuns(s, v, wk, fin);
  }

  /** The same for `flush`. */
  lemma SoloFlush(s: State, k: Waker, fin: bool)
    requires Quiet(s)
    ensures var (m, result, called) := FlushCall(Mem(s), k, fin);
      WriterEnds(Next(s, CallFlush(k, fin)), result, m, Calling(s.woken, called))
  {
    FlushRuns(s, k, fin);
  }

  /** The same for `read`. */
  lemma SoloRead(s: State, wk: Option<Waker>, cancel: bool)
    requires Quiet(s)
    ensures var (m, result, called) := ReadCall(Mem(s), wk, cancel);
      ReaderEnds(Next(s, CallRead(wk, cancel)), result, m, Calling(s.woken, called))
  {
    ReadRuns(s, wk, cancel);
  }
}
