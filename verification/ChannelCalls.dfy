/** What each call on the channel does when nothing runs beside it: the whole-call meaning
    of `write`, `flush`, `read` and `drop_one_side` on the memory of the channel. */
module ChannelCalls {
  import opened Cells
  import opened ChannelSteps

  datatype Memory = Memory(word: Word, value: Maybe<Payload>, waker: Maybe<Waker>)

  const EMPTY := Memory(FRESH, Empty, Empty)

  /** No call in progress: both locks clear, each cell full exactly when its flag says so. */
  predicate AtRest(m: Memory) {
    && !m.word.wlock && !m.word.rlock
    && !m.value.Broken? && (m.value.Full? <==> m.word.loaded)
    && !m.waker.Broken? && (m.waker.Full? <==> m.word.wake)
  }

  // The wakers called, with `k`, if any, as the next.
  function Woke(woken: seq<Waker>, k: Option<Waker>): seq<Waker> {
    if k.Some? then woken + [k.value] else woken
  }

  function Call(m: Memory): Option<Waker> { if m.waker.Full? then Some(m.waker.value) else None }

  /** New memory, result, and the waker that gets called. */
  function WriteCall(m: Memory, v: Payload, wk: Option<Waker>, fin: bool): (Memory, WriterResult, Option<Waker>) {
    if !m.word.active then (m, WriteErr(v, true), None)
    else if m.word.loaded then (m, WriteErr(v, false), None)
    else if wk.Some? then (Memory(FRESH.(loaded := true, wake := true), Full(v), Full(wk.value)), WriteOk, Call(m))
    else (Memory(FRESH.(loaded := true, active := !fin), Full(v), Empty), WriteOk, Call(m))
  }

  function FlushCall(m: Memory, k: Waker, fin: bool): (Memory, WriterResult, Option<Waker>) {
    if !m.word.loaded then
      (m.(word := m.word.(active := m.word.active && !fin)), FlushReady(None, !m.word.active), None)
    else if !m.word.active then
      (Memory(if fin then m.word else DONE, Empty, m.waker),
       FlushReady(if m.value.Full? then Some(m.value.value) else None, true), None)
    else (m.(word := m.word.(wake := true), waker := Full(k)), FlushPending, None)
  }

  function ReadCall(m: Memory, wk: Option<Waker>, cancel: bool): (Memory, ReaderResult, Option<Waker>) {
    if m.word.loaded then
      var v := if m.value.Full? then Some(m.value.value) else None;
      if m.word.active then (EMPTY, ReadReady(v, false), Call(m))
      else (Memory(m.word.(loaded := false), Empty, m.waker), ReadReady(v, true), None)
    else if !m.word.active then (m, ReadReady(None, true), None)
    else if cancel then (m.(word := m.word.(active := false)), ReadReady(None, false), None)
    else if wk.Some? then (Memory(FRESH.(wake := true), Empty, Full(wk.value)), ReadPending, None)
    else (EMPTY, ReadReady(None, false), None)
  }

  function DropCall(m: Memory, isWriter: bool): (Memory, bool, Option<Waker>) {
    if !m.word.active then
      (Memory(m.word.(wlock := true, wake := true), Empty, Empty), true, None)
    else
      (Memory(m.word.(active := false, wake := false), m.value, Empty), false,
       if m.word.loaded != isWriter then Call(m) else None)
  }
}

/** The channel in the form of its source: a state word and two cells changed in place by
    loops of atomic operations, for calls that do not overlap.  Each call is proved to do
    what its whole-call meaning says, and to leave the channel at rest. */
module ChannelObject {
  import opened Cells
  import opened ChannelSteps
  import opened ChannelCalls

  class Channel {
    var state: Word
    var value: Maybe<Payload>
    var waker: Maybe<Waker>
    ghost var called: seq<Waker>
    // How many more weak compare-exchanges will fail for no reason.
    ghost var spurious: nat

    ghost function View(): Memory
      reads this
    {
      Memory(state, value, waker)
    }

    // The waker `k`, if any, is the only one called since `before`.
    ghost predicate Called(before: seq<Waker>, k: Option<Waker>)
      reads this
    {
      called == Woke(before, k)
    }

    constructor (ghost failures: nat)
      ensures View() == EMPTY && AtRest(View()) && called == [] && spurious == failures
    {
      state, value, waker := FRESH, Empty, Empty;
      called, spurious := [], failures;
    }

    method Wake(k: Option<Waker>)
      modifies this`called
      ensures Called(old(called), k)
    {
      if k.Some? {
        called := called + [k.value];
      }
    }

    // `compare_exchange_weak`: `found` is the word as it was.
    method CompareExchangeWeak(expected: Word, next: Word) returns (ok: bool, found: Word)
      modifies this`state, this`spurious
      ensures found == old(state) && (ok ==> found == expected)
      ensures state == (if ok then next else old(state))
      ensures spurious <= old(spurious) && (!ok && found == expected ==> spurious < old(spurious))
    {
      found := state;
      ok := found == expected;
      if ok {
        state := next;
      }
    }

    method Write(v: Payload, wk: Option<Waker>, fin: bool) returns (r: WriterResult)
      requires AtRest(View())
      modifies this
      ensures AtRest(View())
      ensures var (m, result, k) := WriteCall(old(View()), v, wk, fin);
        View() == m && r == result && Called(old(called), k)
    {
      var seen := state;
      if !seen.active {
        return WriteErr(v, true);
      }
      if seen.loaded {
        return WriteErr(v, false);
      }
      value := value.Store(v);
      if wk.None? && !seen.wake {
        var ok, _ := CompareExchangeWeak(seen, seen.(loaded := true, active := seen.active && !fin));
        if ok {
          return WriteOk;
        }
      }
      var prev := state;
      state := prev.(loaded := true, wlock := true, wake := true);
      if !prev.wlock {
        var held := None;
        if prev.wake {
          held, waker := Some(waker.value), waker.Take();
        }
        if wk.Some? {
          waker := waker.Store(wk.value);
          if state == prev.(loaded := true, wlock := true, wake := true) {
            state := prev.(loaded := true, wake := true);
          } else {
            assert false;
          }
        } else {
          prev, state := state, state.(wlock := false, wake := false, active := state.active && !fin);
          if !prev.active {
            assert false;
          }
        }
        Wake(held);
      } else {
        assert false; // the reader holds the lock only while it is reading
      }
      return WriteOk;
    }

    method Flush(k: Waker, fin: bool) returns (r: WriterResult)
      requires AtRest(View())
      modifies this
      ensures var (m, result, w) := FlushCall(old(View()), k, fin);
        View() == m && r == result && Called(old(called), w)
      ensures AtRest(View()) <==> !(r.FlushReady? && r.value.Some? && (fin || old(state.wake)))
    {
      var prev := state;
      var locked := false;
      while true
        invariant value == old(value) && called == old(called)
        invariant prev.(wake := false) == old(state).(wake := false)
        invariant waker.Full? == prev.wake && !waker.Broken?
        invariant locked || View() != old(View()) ==> prev.loaded && prev.active
        invariant state == if locked then prev.(wlock := true, wake := true) else prev
        decreases spurious, !locked
      {
        if !prev.loaded && !prev.rlock {
          if locked {
            assert false;
          }
          prev, state := state, state.(active := state.active && !fin);
          return FlushReady(None, !prev.active);
        }
        if !prev.active {
          if !fin {
            state := DONE;
          }
          var v := value.value;
          value := value.Take();
          return FlushReady(Some(v), true);
        }
        if locked {
          if prev.wake {
            waker := waker.Take();
          }
          waker := waker.Store(k);
          var ok, _ := CompareExchangeWeak(prev.(wlock := true, wake := true), prev.(wake := true));
          if ok {
            return FlushPending;
          }
          waker := waker.Take();
          state := state.(wlock := false, wake := false);
          prev, locked := state, false;
        } else {
          var ok, found := CompareExchangeWeak(prev, prev.(wlock := true, wake := true));
          if ok {
            locked := true;
          } else if found.wlock {
            assert false;
          }
          prev := found;
        }
      }
    }

    method Read(wk: Option<Waker>, cancel: bool) returns (r: ReaderResult)
      requires AtRest(View())
      modifies this
      ensures AtRest(View())
      ensures var (m, result, k) := ReadCall(old(View()), wk, cancel);
        View() == m && r == result && Called(old(called), k)
      ensures cancel ==> !state.active || old(value).Full?
      ensures cancel && old(value).Empty? ==>
        r == ReadReady(None, !old(state.active)) && value.Empty? && waker == old(waker) && called == old(called)
      ensures old(value).Full? ==> r == ReadReady(Some(old(value).value), !old(state.active)) && value.Empty?
    {
      var prev := state;
      while true
        invariant View() == old(View()) && prev == state && called == old(called)
        decreases spurious
      {
        if !prev.active {
          if prev.loaded {
            state := prev.(loaded := false);
            var v := value.value;
            value := value.Take();
            return ReadReady(Some(v), true);
          }
          return ReadReady(None, true);
        }
        if prev.loaded {
          var ok, found := CompareExchangeWeak(prev, prev.(rlock := true, wlock := true));
          if ok {
            var v := value.value;
            value := value.Take();
            var held := None;
            if !prev.wlock && prev.wake {
              held, waker := Some(waker.value), waker.Take();
            }
            var seen := state;
            state := state.(loaded := false, rlock := false,
                            wlock := state.wlock && prev.wlock, wake := state.wake && prev.wlock);
            Wake(held);
            return ReadReady(Some(v), !seen.active);
          }
          prev := found;
        } else if cancel {
          if state == prev {
            state := prev.(active := false);
            return ReadReady(None, false);
          }
          prev := state;
        } else if wk.Some? || prev.wake {
          if prev.wlock {
            assert false; // the writer holds the lock only while it is writing
          }
          var ok, found := CompareExchangeWeak(prev, prev.(rlock := true, wlock := true, wake := true));
          if ok {
            if prev.wake {
              waker := waker.Take();
            }
            if wk.Some? {
              waker := waker.Store(wk.value);
              if state == prev.(rlock := true, wlock := true, wake := true) {
                state := prev.(wake := true);
                return ReadPending;
              } else {
                assert false; // the word changes only if the writer runs beside this call
              }
            } else {
              state := state.(rlock := false, wlock := false, wake := false);
              prev := state;
              if prev.active && !prev.loaded {
                return ReadReady(None, false);
              }
            }
          } else {
            prev := found;
          }
        } else {
          return ReadReady(None, false);
        }
      }
    }

    method DropOneSide(isWriter: bool) returns (last: bool)
      requires AtRest(View())
      modifies this
      ensures var (m, result, k) := DropCall(old(View()), isWriter);
        View() == m && last == result && Called(old(called), k)
      ensures !last ==> AtRest(View())
      ensures last <==> !old(state.active)
      ensures last ==> value.Empty? && waker.Empty? && called == old(called)
      ensures !last ==> !state.active && state.loaded == old(state.loaded) && value == old(value) && waker.Empty?
      ensures !last && old(waker).Full? && old(state.loaded) != isWriter ==> called == old(called) + [old(waker).value]
      ensures !last && (old(waker).Empty? || old(state.loaded) == isWriter) ==> called == old(called)
    {
      var prev := state;
      state := prev.(wlock := true, wake := true);
      if !prev.active {
        if prev.loaded {
          value := value.Take();
        }
        if prev.wake {
          waker := waker.Take();
        }
        return true;
      }
      if !prev.wlock {
        var held := None;
        if prev.wake {
          if prev.loaded != isWriter {
            held := Some(waker.value);
          }
          waker := waker.Take();
        }
        prev, state := state, state.(wlock := false, wake := false, active := false);
        Wake(held);
      } else {
        assert false; // the lock is held only while another call is in progress
      }
      if !prev.active {
        assert false; // the other side can close in between only if the calls overlap
      }
      return false;
    }
  }
}
