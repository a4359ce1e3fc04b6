/** `send_once` pairs in the form of their source: handles that hold the allocation in an
    option, take it out for each call, and put it back or free it.  Every call is an event of
    the lifecycle. */
module OnceObject {
  import opened Cells
  import opened ChannelSteps
  import opened ChannelCalls
  import opened ChannelObject
  import opened Lifecycle

  datatype SendResult = Delivered | Full(back: Payload) | Disconnected(back: Payload)
  datatype RecvResult = Ok(v: Payload) | Incomplete | Terminated

  // A sender that is still there has got nothing back yet, and handed over one value at most.
  predicate Single(l: Link) {
    && (SenderOpen(l) ==> l.returned == multiset{} && l.dropped == multiset{})
    && (l.sender.Held? ==> l.sent == multiset{})
    && (l.sender.Loaded? ==> l.sent == multiset{l.sender.v})
    && (l.receiver.Got? ==> l.receiver.v in l.received)
  }

  lemma SendKeepsSingle(l: Link, e: Lifecycle.Event)
    requires Shape(l) && l.kind == Once && Single(l) && l.sender.Held?
    ensures Single(SendOnceCall(l, e))
  {
  }

  lemma FlushKeepsSingle(l: Link, e: Lifecycle.Event)
    requires Shape(l) && l.kind == Once && Single(l) && (l.sender.Loaded? || l.sender.Written?)
    ensures Single(FlushOnceCall(l, e))
  {
  }

  lemma PollKeepsSingle(l: Link, wk: Option<Waker>)
    requires Shape(l) && l.kind == Once && Single(l) && ReceiverOpen(l)
    ensures Single(ReceiverOnceCall(l, Receive(wk)))
  {
  }

  lemma ReceiveKeepsSingle(l: Link, e: Lifecycle.Event)
    requires Shape(l) && l.kind == Once && Single(l) && ReceiverOpen(l) && !e.Receive?
    ensures Single(ReceiverOnceCall(l, e))
  {
  }

  lemma KeepsSingle(l: Link, e: Lifecycle.Event)
    requires Shape(l) && l.kind == Once && Single(l)
    ensures Single(Lifecycle.Next(l, e))
  {
    if OfReceiver(e) {
      if ReceiverOpen(l) {
        if e.Receive? { PollKeepsSingle(l, e.wk); } else { ReceiveKeepsSingle(l, e); }
      }
    } else if l.sender.Held? {
      SendKeepsSingle(l, e);
    } else if SenderOpen(l) {
      FlushKeepsSingle(l, e);
    }
  }

  ghost predicate Fits(l: Link) { l.kind == Once && Shape(l) && Single(l) && forall v :: Balanced(l, v) }

  // A flush that still waits waits for its own value.
  lemma WaitsForItsOwn(l: Link, v0: Payload)
    requires Fits(l) && l.sent == multiset{v0} && SenderOpen(l) && l.mem.value.Full?
    ensures l.mem.value == Cells.Full(v0)
  {
    assert Balanced(l, l.mem.value.value);
  }

  // A value that is no longer inside, with the sender still there, was received.
  lemma GoneMeansReceived(l: Link, v0: Payload)
    requires Fits(l) && l.sent == multiset{v0} && l.sender.Written? && l.mem.value.Empty?
    ensures l.received == multiset{v0}
  {
    forall v ensures l.received[v] == l.sent[v] { assert Balanced(l, v); }
    assert l.received == l.sent;
  }

  // What a receiving poll makes of the result of its read.
  lemma PolledOutcome(l: Link, wk: Option<Waker>)
    requires Fits(l) && ReceiverOpen(l)
    ensures var l' := Lifecycle.Next(l, Receive(wk)); var (m, r, _) := ReadCall(l.mem, wk, false);
      if r.ReadPending? then l'.mem == m && l'.frees == l.frees && SenderOpen(l) && wk.Some?
      else
        var (m', last, _) := if r.dropped then (m, true, None) else DropCall(m, false);
        && l'.receiver == Outcome(r) && l'.mem == m' && l'.frees == (if last then 1 else 0)
        && (l'.receiver.Incomplete? ==> !SenderOpen(l') && l'.frees == 1)
        && (l'.receiver.GaveUp? ==> wk.None?)
  {
  }

  lemma GotWasSent(l: Link)
    requires Fits(l) && l.receiver.Got?
    ensures l.receiver.v in l.sent
  {
    assert Balanced(l, l.receiver.v);
  }

  // The box that both handles point to.
  class Shared {
    const channel: Channel
    var frees: nat
    ghost var l: Link

    ghost predicate Valid()
      reads this, channel
    {
      Fits(l) && l.mem == channel.View() && l.woken == channel.called && l.frees == frees
    }

    // `send_once()`
    constructor ()
      ensures Valid() && l == Fresh(Once) && fresh(channel)
    {
      channel := new Channel(0);
      frees, l := 0, Fresh(Once);
    }

    // The event that a call amounts to.
    ghost method Did(e: Lifecycle.Event)
      requires Fits(l)
      requires Lifecycle.Next(l, e).mem == channel.View() && Lifecycle.Next(l, e).woken == channel.called
      requires Lifecycle.Next(l, e).frees == frees
      modifies this`l
      ensures Valid() && l == Lifecycle.Next(old(l), e)
    {
      KeepsKind(l, e);
      KeepsShape(l, e);
      KeepsSingle(l, e);
      forall v ensures Balanced(Lifecycle.Next(l, e), v) { KeepsBalance(l, e, v); }
      l := Lifecycle.Next(l, e);
    }

    method Dealloc()
      modifies this`frees
      ensures frees == old(frees) + 1
    {
      frees := frees + 1;
    }

    // The receiving side goes: it closes unless it was told that the sender has, and the last
    // one frees.
    method Leave(dropped: bool)
      requires !dropped ==> AtRest(channel.View())
      modifies this`frees, channel
      ensures var (m, last, k) := if dropped then (old(channel.View()), true, None)
                                  else DropCall(old(channel.View()), false);
        && channel.View() == m && channel.Called(old(channel.called), k)
        && frees == old(frees) + if last then 1 else 0
    {
      var last := dropped;
      if !last {
        last := channel.DropOneSide(false);
      }
      if last {
        Dealloc();
      }
    }
  }

  /** The `Flush` of `SendOnce::send`. */
  class Flush {
    var channel: Option<Shared>
    var value: Option<Payload>
    ghost const inner: Shared
    ghost const v0: Payload

    ghost predicate Valid()
      reads this, inner, inner.channel
    {
      && inner.Valid() && channel == (if SenderOpen(inner.l) then Some(inner) else None)
      && inner.l.sent == multiset{v0} && !inner.l.sender.Held?
      && value == (if inner.l.sender.Loaded? then Some(v0) else None)
    }

    // `SendOnce::send`
    constructor (s: Shared, v: Payload)
      requires s.Valid() && s.l.sender.Held?
      modifies s
      ensures Valid() && inner == s && v0 == v && s.l == Lifecycle.Next(old(s.l), Send(v))
    {
      channel, value, inner, v0 := Some(s), Some(v), s, v;
      new;
      s.Did(Send(v));
    }

    /** `Flush::poll`.  It is done exactly when the value was received or came back: Delivered
        means received, and Disconnected returns the value that was sent. */
    method Poll(k: Waker) returns (r: Option<SendResult>)
      requires Valid()
      modifies this, inner, inner.channel
      ensures Valid()
      ensures old(channel).Some? && r == Some(Delivered) ==> inner.l.received == multiset{v0}
      ensures r.Some? && r != Some(Delivered) ==> r == Some(Disconnected(v0)) && inner.l.returned == multiset{v0}
      ensures r.None? ==> inner.l.sender.Written? && inner.l.mem.value == Cells.Full(v0)
      ensures r.None? ==> ReceiverOpen(inner.l) && inner.channel.waker == Cells.Full(k)
      ensures r.Some? <==> channel.None?
      ensures inner.l.receiver == old(inner.l.receiver)
    {
      if value.Some? {
        r := FirstPoll(k);
      } else if channel.Some? {
        r := LaterPoll(k);
      } else {
        r := Some(Delivered);
      }
    }

    method FirstPoll(k: Waker) returns (r: Option<SendResult>)
      requires Valid() && value.Some?
      modifies this, inner, inner.channel
      ensures Valid()
      ensures r.Some? ==> r == Some(Disconnected(v0)) && inner.l.returned == multiset{v0}
      ensures r.None? ==> inner.l.sender.Written? && inner.l.mem.value == Cells.Full(v0)
      ensures r.None? ==> ReceiverOpen(inner.l) && inner.channel.waker == Cells.Full(k)
      ensures r.Some? <==> channel.None?
      ensures inner.l.receiver == old(inner.l.receiver)
    {
      var v := value.value;
      value := None;
      var s := channel.value;
      channel := None;
      var w := s.channel.Write(v, Some(k), true);
      if w.WriteErr? {
        if !w.dropped {
          assert false; // the one value of this channel finds it empty
        }
        s.Dealloc();
        s.Did(PollSend(k));
        return Some(Disconnected(w.back));
      }
      channel := Some(s);
      s.Did(PollSend(k));
      return None;
    }

    method LaterPoll(k: Waker) returns (r: Option<SendResult>)
      requires Valid() && value.None? && channel.Some?
      modifies this, inner, inner.channel
      ensures Valid()
      ensures r == Some(Delivered) ==> inner.l.received == multiset{v0}
      ensures r.Some? && r != Some(Delivered) ==> r == Some(Disconnected(v0)) && inner.l.returned == multiset{v0}
      ensures r.None? ==> inner.l.sender.Written? && inner.l.mem.value == Cells.Full(v0)
      ensures r.None? ==> ReceiverOpen(inner.l) && inner.channel.waker == Cells.Full(k)
      ensures r.Some? <==> channel.None?
      ensures inner.l.receiver == old(inner.l.receiver)
    {
      var s := channel.value;
      channel := None;
      if s.channel.value.Full? {
        WaitsForItsOwn(s.l, v0);
      } else {
        GoneMeansReceived(s.l, v0);
      }
      var f := s.channel.Flush(k, true);
      if f.FlushReady? {
        if !f.dropped {
          assert false; // a receiver that took the value has closed its side
        }
        s.Dealloc();
        s.Did(PollSend(k));
        return Some(if f.value.Some? then Disconnected(f.value.value) else Delivered);
      }
      channel := Some(s);
      s.Did(PollSend(k));
      return None;
    }

    method Drop()
      requires Valid()
      modifies this, inner, inner.channel
      ensures inner.Valid() && channel.None?
      ensures inner.l == if old(channel).Some? then Lifecycle.Next(old(inner.l), DropFlush) else old(inner.l)
    {
      if channel.Some? {
        var s := channel.value;
        channel := None;
        var last := s.channel.DropOneSide(true);
        if last {
          s.Dealloc();
        }
        s.Did(DropFlush);
      }
    }
  }

  /** The receiving handle. */
  class ReceiveOnce {
    var channel: Option<Shared>
    ghost const inner: Shared

    ghost predicate Valid()
      reads this, inner, inner.channel
    {
      inner.Valid() && channel == if ReceiverOpen(inner.l) then Some(inner) else None
    }

    constructor (s: Shared)
      requires s.Valid() && ReceiverOpen(s.l)
      ensures Valid() && inner == s && channel == Some(s)
    {
      channel, inner := Some(s), s;
    }

    /** `poll_result`: a value is received, or there will be none, or the poll is Pending;
        without a waker a poll that finds nothing gives up. */
    method PollResult(wk: Option<Waker>) returns (r: Option<RecvResult>)
      requires Valid()
      modifies this, inner, inner.channel
      ensures Valid() && (r.Some? <==> channel.None?)
      ensures old(channel).None? ==> r == Some(Terminated)
      ensures old(channel).Some? && r.Some? && r.value.Ok? ==>
        inner.l.receiver == Got(r.value.v) && r.value.v in inner.l.sent
      ensures r == Some(RecvResult.Incomplete) ==>
        inner.l.receiver.Incomplete? || (wk.None? && inner.l.receiver.GaveUp?)
      ensures inner.l.receiver.Incomplete? && old(channel).Some? ==> !SenderOpen(inner.l) && inner.frees == 1
      ensures old(channel).Some? && old(inner.channel.value).Full? ==> r == Some(Ok(old(inner.channel.value.value)))
      ensures r.None? ==> SenderOpen(inner.l) && wk.Some?
      ensures r.None? ==> inner.channel.value.Empty? && inner.channel.waker == Cells.Full(wk.value)
      ensures r.None? ==> inner.l.rAsk == Asked(wk.value, |inner.channel.called|)
    {
      r := if channel.None? then Some(Terminated) else None;
      if channel.Some? {
        r := PollOpen(wk);
      }
    }

    // While the handle is open.
    method PollOpen(wk: Option<Waker>) returns (r: Option<RecvResult>)
      requires Valid() && channel.Some?
      modifies this, inner, inner.channel
      ensures Valid() && (r.Some? <==> channel.None?) && (r.Some? ==> !r.value.Terminated?)
      ensures r.Some? && r.value.Ok? ==> inner.l.receiver == Got(r.value.v) && r.value.v in inner.l.sent
      ensures r == Some(RecvResult.Incomplete) ==>
        inner.l.receiver.Incomplete? || (wk.None? && inner.l.receiver.GaveUp?)
      ensures inner.l.receiver.Incomplete? ==> !SenderOpen(inner.l) && inner.frees == 1
      ensures old(inner.channel.value).Full? ==> r == Some(Ok(old(inner.channel.value.value)))
      ensures r.None? ==> SenderOpen(inner.l) && wk.Some?
      ensures r.None? ==> inner.channel.value.Empty? && inner.channel.waker == Cells.Full(wk.value)
      ensures r.None? ==> inner.l.rAsk == Asked(wk.value, |inner.channel.called|)
    {
      var s := channel.value;
      channel := None;
      PolledOutcome(s.l, wk);
      var read := s.channel.Read(wk, false);
      if read.ReadReady? {
        s.Leave(read.dropped);
        s.Did(Receive(wk));
        if read.value.Some? {
          GotWasSent(s.l);
        }
        return Some(if read.value.Some? then Ok(read.value.value) else RecvResult.Incomplete);
      }
      channel := Some(s);
      s.Did(Receive(wk));
      return None;
    }

    method Drop()
      requires Valid()
      modifies this, inner, inner.channel
      ensures inner.Valid() && channel.None?
      ensures inner.l == if old(channel).Some? then Lifecycle.Next(old(inner.l), DropReceiver) else old(inner.l)
    {
      if channel.Some? {
        var s := channel.value;
        channel := None;
        var last := s.channel.DropOneSide(false);
        if last {
          s.Dealloc();
        }
        s.Did(DropReceiver);
      }
    }
  }
}
