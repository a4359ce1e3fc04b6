/** Async streams in the form of their source: a pointer that belongs to the thread, changed
    around every poll of a generator, and streams whose state is replaced poll by poll. */
module StreamObject {
  import opened Cells
  import opened StreamMeaning
  import opened StreamState

  datatype Sent = Delivered | NoActiveChannel | ChannelFilled

  // Poll<Option<Item>>
  datatype Polled = Pending | Ready(item: Option<Item>)

  /** One thread: `CHANNEL`, and the slots that the polls on its stack have set up. */
  class Thread {
    var channel: Option<nat>
    var slots: seq<Option<Item>>

    constructor ()
      ensures channel == None && slots == []
    {
      channel, slots := None, [];
    }

    // A pointer that is not null designates an empty slot.
    ghost predicate Clean()
      reads this
    {
      channel.Some? ==> channel.value < |slots| && slots[channel.value] == None
    }

    method StreamSend(x: Item) returns (r: Sent)
      requires channel.Some? ==> channel.value < |slots|
      modifies this
      ensures channel == None && Clean()
      ensures r == match old(channel)
                   case None => NoActiveChannel
                   case Some(at) => if old(slots)[at].Some? then ChannelFilled else Delivered
      ensures slots == match old(channel) case None => old(slots) case Some(at) => old(slots)[at := Some(x)]
    {
      var ptr := channel;
      channel := None;
      if ptr.None? {
        return NoActiveChannel;
      }
      var was := slots[ptr.value];
      slots := slots[ptr.value := Some(x)];
      return if was.Some? then ChannelFilled else Delivered;
    }

    // `AsyncStreamFlush::poll`
    method PollFlush(first: bool) returns (ready: bool, first': bool)
      ensures ready == (!first && channel.Some?)
      ensures !first'
    {
      if first || channel.None? {
        return false, false;
      }
      return true, first;
    }
  }

  // What a poll owes its caller, given what was left of the stream before it.
  predicate Answers(left: seq<Seen>, r: Polled, left': seq<Seen>) {
    if left == [] then r == Ready(None) && left' == []
    else left' == left[1..] && r == if left[0].None? then Pending else Ready(left[0])
  }

  class AsyncStream {
    var state: State

    constructor (s: State)
      ensures state == s
    {
      state := s;
    }

    /** One poll.  Whatever the nesting, it sees exactly the next event that the generator's
        meaning holds, and leaves the thread as it found it. */
    method PollNext(th: Thread) returns (r: Polled)
      requires th.Clean() && StreamState.Polled(state)
      modifies this, th
      ensures Answers(LeftOf(old(state)), r, LeftOf(state))
      ensures StreamState.Polled(state) && WorkOf(state) <= WorkOf(old(state))
      ensures r == Ready(None) ==> state == Complete
      ensures th.channel == old(th.channel) && th.slots == old(th.slots)
      decreases WorkOf(state), 3
    {
      while true
        invariant StreamState.Polled(state) && LeftOf(state) == LeftOf(old(state))
        invariant WorkOf(state) <= WorkOf(old(state))
        invariant th.channel == old(th.channel) && th.slots == old(th.slots)
        decreases WorkOf(state)
      {
        if state.Poll? {
          var item, ready, fut := StreamPoll(th, state.fut);
          if ready {
            state := Complete;
            return Ready(item);
          } else {
            state := Poll(fut);
            return if item.Some? then Ready(item) else Pending;
          }
        }
        var was := state;
        state := Complete;
        match was
        case Init(gen, env) =>
          Begins(gen, env);
          state := Poll(Fut(None, gen, env, NoLoop));
        case Complete =>
          return Ready(None);
      }
    }

    // Set up a slot, point to it, poll, and put the pointer back.
    static method StreamPoll(th: Thread, f: Fut) returns (item: Option<Item>, ready: bool, f': Fut)
      requires th.Clean() && PolledFut(f)
      modifies th
      ensures var left := LeftOfFut(f).events;
        Answers(left, if ready || item.Some? then Ready(item) else Pending, if ready then [] else LeftOfFut(f').events)
      ensures !ready ==> PolledFut(f') && WorkOfFut(f') <= WorkOfFut(f)
      ensures th.channel == old(th.channel) && th.slots == old(th.slots)
      decreases WorkOfFut(f), 2
    {
      th.slots := th.slots + [None];
      var prev := th.channel;
      th.channel := Some(|th.slots| - 1);
      ready, f' := PollFuture(th, f);
      th.channel := prev;
      item := th.slots[|th.slots| - 1];
      th.slots := th.slots[..|th.slots| - 1];
    }

    /** The generator itself, from where it stopped to where it stops next. */
    static method PollFuture(th: Thread, f: Fut) returns (ready: bool, f': Fut)
      requires |th.slots| > 0 && th.channel == Some(|th.slots| - 1) && th.Clean() && PolledFut(f)
      modifies th
      ensures |th.slots| == |old(th.slots)| && th.Clean()
      ensures th.slots[..|th.slots| - 1] == old(th.slots)[..|th.slots| - 1]
      ensures th.channel == (if th.slots[|th.slots| - 1].Some? then None else old(th.channel))
      ensures var left := LeftOfFut(f).events; var item := th.slots[|th.slots| - 1];
        Answers(left, if ready || item.Some? then Ready(item) else Pending, if ready then [] else LeftOfFut(f').events)
      ensures !ready ==> PolledFut(f') && WorkOfFut(f') <= WorkOfFut(f)
      decreases WorkOfFut(f), 1
    {
      var cur := f;
      if cur.flush.Some? {
        var flushed, first := th.PollFlush(cur.flush.value);
        assert flushed;
        cur := cur.(flush := None);
      }
      while true
        invariant PolledFut(cur) && cur.flush == None
        invariant LeftOfFut(cur) == LeftOfFut(f) && WorkOfFut(cur) <= WorkOfFut(f)
        invariant th.channel == old(th.channel) && th.slots == old(th.slots)
        decreases WorkOfFut(cur)
      {
        match cur.now
        case Send(item, rest) =>
          CodeGoesOn(cur);
          var sent := th.StreamSend(item(cur.env));
          assert sent == Delivered;
          var flushed, first := th.PollFlush(true);
          return flushed, cur.(flush := Some(first), now := rest);
        case Pause(rest) =>
          CodeGoesOn(cur);
          return false, cur.(now := rest);
        case Fail(error) =>
          var sent := th.StreamSend(Bad(error(cur.env)));
          assert sent == Delivered;
          return true, cur;
        case If(test, yes, no) =>
          cur := cur.(now := if test(cur.env) then yes else no);
        case Each(inner, body, rest) =>
          EachStarts(cur);
          cur := cur.(now := Done, loops := Loop(Init(inner, cur.env), body, rest, cur.env, cur.loops));
        case Done =>
          if cur.loops.NoLoop? {
            return true, cur;
          }
          var waiting;
          waiting, cur := PollLoop(th, cur);
          if waiting {
            return false, cur;
          }
      }
    }

    // `inner.next().await` of the innermost loop.
    static method PollLoop(th: Thread, f: Fut) returns (waiting: bool, f': Fut)
      requires f.now.Done? && f.loops.Loop? && f.flush == None && PolledFut(f) && th.Clean()
      modifies th
      ensures PolledFut(f') && f'.flush == None
      ensures waiting ==> LeftOfFut(f) == Then(Trace([None], false), LeftOfFut(f')) && WorkOfFut(f') <= WorkOfFut(f)
      ensures !waiting ==> LeftOfFut(f) == LeftOfFut(f') && WorkOfFut(f') < WorkOfFut(f)
      ensures th.channel == old(th.channel) && th.slots == old(th.slots)
      decreases WorkOfFut(f), 0
    {
      InnerIsLess(f);
      var stream := new AsyncStream(f.loops.inner);
      var r := stream.PollNext(th);
      match r
      case Pending =>
        EachWaits(f, stream.state);
        return true, f.(loops := f.loops.(inner := stream.state));
      case Ready(None) =>
        EachEnds(f);
        return false, f.(now := f.loops.rest, env := f.loops.env, loops := f.loops.outer);
      case Ready(Some(x)) =>
        EachTurns(f, x, stream.state);
        return false, f.(now := f.loops.body, env := f.loops.env + [x], loops := f.loops.(inner := stream.state));
    }

    /** Poll after poll sees the meaning of the generator, event after event, then the end for
        ever. */
    method Observe(th: Thread, n: nat) returns (seen: seq<Polled>)
      requires th.Clean() && StreamState.Polled(state)
      modifies this, th
      ensures |seen| == n
      ensures forall k :: 0 <= k < n ==> seen[k] == Expected(LeftOf(old(state)), k)
      ensures n > |LeftOf(old(state))| ==> state == Complete
      ensures th.channel == old(th.channel) && th.slots == old(th.slots)
    {
      seen := [];
      ghost var left := LeftOf(state);
      for k := 0 to n
        invariant |seen| == k && StreamState.Polled(state)
        invariant forall j :: 0 <= j < k ==> seen[j] == Expected(left, j)
        invariant LeftOf(state) == if k <= |left| then left[k..] else []
        invariant k > |left| ==> state == Complete
        invariant th.channel == old(th.channel) && th.slots == old(th.slots)
      {
        var r := PollNext(th);
        seen := seen + [r];
      }
    }
  }

  // What the k-th poll sees of a stream.
  function Expected(left: seq<Seen>, k: nat): Polled {
    if k >= |left| then Ready(None) else if left[k].None? then Pending else Ready(left[k])
  }
}
