/** What the two handles are told over whole runs of their lifecycle: a handle that waits is
    called, a value that arrives is one that a call brought, a task that is said to have
    completed was run to its end. */
module LifecycleAnswers {
  import opened Cells
  import ChannelSteps
  import opened ChannelCalls
  import opened Lifecycle
  import opened Runs

  type Payload = ChannelSteps.Payload
  type Waker = ChannelSteps.Waker

  // --- Wake-ups

  // The wakers called since the handle's last poll.
  function Since(a: Asked, woken: seq<Waker>): seq<Waker>
    requires a.Asked?
  {
    if a.mark <= |woken| then woken[a.mark..] else []
  }

  predicate Uncalled(a: Asked, woken: seq<Waker>) { a.Asked? && a.k !in Since(a, woken) }

  lemma UncalledMeans(a: Asked)
    requires a.Asked?
    ensures forall woken: seq<Waker>, k :: a.mark <= |woken| ==>
      (Uncalled(a, Woke(woken, k)) <==> Uncalled(a, woken) && k != Some(a.k))
  {
    forall woken: seq<Waker>, k | a.mark <= |woken|
      ensures Uncalled(a, Woke(woken, k)) <==> Uncalled(a, woken) && k != Some(a.k)
    {
      if k.Some? { assert (woken + [k.value])[a.mark..] == woken[a.mark..] + [k.value]; }
    }
  }

  // One use of the allocation, for both handles.
  lemma MarksMean(l: Link)
    requires Waked(l)
    ensures forall a, woken: seq<Waker>, k :: (a == l.sAsk || a == l.rAsk) && a.Asked? && a.mark <= |woken| ==>
      (Uncalled(a, Woke(woken, k)) <==> Uncalled(a, woken) && k != Some(a.k))
  {
    if l.sAsk.Asked? { UncalledMeans(l.sAsk); }
    if l.rAsk.Asked? { UncalledMeans(l.rAsk); }
  }

  // A handle that waits and was not called has its waker in the cell, with the other handle
  // still there to find it.
  predicate ReaderWaked(l: Link) {
    && (l.rAsk.Asked? ==> l.rAsk.mark <= |l.woken|)
    && (ReceiverOpen(l) && Uncalled(l.rAsk, l.woken) ==>
        l.mem.waker == Full(l.rAsk.k) && !l.mem.word.loaded && SenderOpen(l))
  }

  predicate SenderWaked(l: Link) {
    && (l.sAsk.Asked? ==> l.sAsk.mark <= |l.woken|)
    && (SenderOpen(l) && Uncalled(l.sAsk, l.woken) ==>
        l.mem.waker == Full(l.sAsk.k) && l.mem.word.loaded && ReceiverOpen(l))
  }

  predicate Waked(l: Link) { ReaderWaked(l) && SenderWaked(l) }

  lemma SendOnceKeepsWaked(l: Link, e: Event)
    requires Shape(l) && Waked(l) && l.kind == Once && l.sender.Held?
    ensures Waked(SendOnceCall(l, e))
  {
    MarksMean(l);
  }

  lemma PollSendKeepsWaked(l: Link, e: Event)
    requires Shape(l) && Waked(l) && l.kind == Once && (l.sender.Loaded? || l.sender.Written?) && e.PollSend?
    ensures Waked(FlushOnceCall(l, e))
  {
    MarksMean(l);
  }

  lemma FlushOnceKeepsWaked(l: Link, e: Event)
    requires Shape(l) && Waked(l) && l.kind == Once && (l.sender.Loaded? || l.sender.Written?)
    ensures Waked(FlushOnceCall(l, e))
  {
    if e.PollSend? { PollSendKeepsWaked(l, e); } else { MarksMean(l); }
  }

  lemma TrySendKeepsWaked(l: Link, v: Payload)
    requires Shape(l) && Waked(l) && l.kind == Many && SenderOpen(l)
    ensures Waked(SenderManyCall(l, TrySend(v)))
  {
    MarksMean(l);
  }

  lemma SenderManyKeepsWaked(l: Link, e: Event)
    requires Shape(l) && Waked(l) && l.kind == Many && SenderOpen(l)
    ensures Waked(SenderManyCall(l, e))
  {
    if e.TrySend? { TrySendKeepsWaked(l, e.v); } else { MarksMean(l); }
  }

  lemma TaskKeepsWaked(l: Link, e: Event)
    requires Shape(l) && Waked(l) && l.kind == Task && SenderOpen(l)
    ensures Waked(TaskCall(l, e))
  {
    MarksMean(l);
  }

  lemma ReceiveManyKeepsWaked(l: Link, wk: Option<Waker>)
    requires Shape(l) && Waked(l) && l.kind == Many && ReceiverOpen(l)
    ensures Waked(ReceiverManyCall(l, Receive(wk)))
  {
    MarksMean(l);
  }

  lemma ReceiverManyKeepsWaked(l: Link, e: Event)
    requires Shape(l) && Waked(l) && l.kind == Many && ReceiverOpen(l)
    ensures Waked(ReceiverManyCall(l, e))
  {
    if e.Receive? { ReceiveManyKeepsWaked(l, e.wk); } else { MarksMean(l); }
  }

  lemma PolledKeepsWaked(l: Link, wk: Option<Waker>)
    requires Shape(l) && Waked(l) && l.kind != Many && ReceiverOpen(l)
    ensures Waked(ReceiverOnceCall(l, Receive(wk)))
  {
    MarksMean(l);
  }

  lemma WaitKeepsWaked(l: Link, wk: Option<Waker>)
    requires Shape(l) && Waked(l) && l.kind != Many && ReceiverOpen(l)
    ensures Waked(ReceiverOnceCall(l, Wait(wk)))
  {
    MarksMean(l);
  }

  lemma JoinKeepsWaked(l: Link, k: Waker)
    requires Shape(l) && Waked(l) && l.kind != Many && ReceiverOpen(l)
    ensures Waked(ReceiverOnceCall(l, JoinPoll(k)))
  {
    MarksMean(l);
  }

  lemma ReceiverOnceKeepsWaked(l: Link, e: Event)
    requires Shape(l) && Waked(l) && l.kind != Many && ReceiverOpen(l)
    ensures Waked(ReceiverOnceCall(l, e))
  {
    match e
    case Receive(wk) => PolledKeepsWaked(l, wk);
    case Wait(wk) => WaitKeepsWaked(l, wk);
    case JoinPoll(k) => JoinKeepsWaked(l, k);
    case _ => MarksMean(l);
  }

  lemma KeepsWaked(l: Link, e: Event)
    requires Shape(l) && Waked(l)
    ensures Waked(Next(l, e))
  {
    if OfReceiver(e) {
      if !ReceiverOpen(l) {
      } else if l.kind == Many { ReceiverManyKeepsWaked(l, e);
      } else { ReceiverOnceKeepsWaked(l, e); }
    } else if SenderOpen(l) {
      match l.kind
      case Once => if l.sender.Held? { SendOnceKeepsWaked(l, e); } else { FlushOnceKeepsWaked(l, e); }
      case Many => SenderManyKeepsWaked(l, e);
      case Task => TaskKeepsWaked(l, e);
    }
  }

  lemma {:induction false} RunKeepsWaked(kind: Kind, log: seq<Event>, run: seq<Link>)
    requires LinkRun(kind, log, run) && Avoids(log, run)
    ensures Waked(run[|log|])
  {
    if log != [] {
      var front := log[..|log| - 1];
      Shorter(Fresh(kind), Next, log, run);
      AvoidsOneMore(log, run);
      RunKeepsWaked(kind, front, run[..|log|]);
      RunKeeps(kind, front, run[..|log|], 0);
      KeepsWaked(run[|log| - 1], log[|log| - 1]);
    }
  }

  /** A handle whose last poll answered Pending was called since, or its waker lies in the cell
      and the other handle is there to find it: closing calls it as sending and receiving do. */
  lemma PendingHandlesAreCalled(kind: Kind, log: seq<Event>, run: seq<Link>)
    requires LinkRun(kind, log, run) && Avoids(log, run)
    ensures var l := run[|log|]; ReceiverOpen(l) && l.rAsk.Asked? ==>
      l.rAsk.k in Since(l.rAsk, l.woken) || (l.mem.waker == Full(l.rAsk.k) && l.mem.value.Empty? && SenderOpen(l))
    ensures var l := run[|log|]; SenderOpen(l) && l.sAsk.Asked? ==>
      l.sAsk.k in Since(l.sAsk, l.woken) || (l.mem.waker == Full(l.sAsk.k) && l.mem.value.Full? && ReceiverOpen(l))
  {
    RunKeepsWaked(kind, log, run);
    RunKeeps(kind, log, run, 0);
  }

  // --- Values

  // What a call of the sending side hands over.
  function Brings(l: Link, e: Event): multiset<Payload> {
    match e
    case Send(v) => if l.kind == Once && l.sender.Held? then multiset{v} else multiset{}
    case TrySend(v) =>
      if (l.kind == Once && l.sender.Held?) || (l.kind == Many && SenderOpen(l)) then multiset{v} else multiset{}
    case FirstPoll(v, _) => if l.kind == Many && SenderOpen(l) then multiset{v} else multiset{}
    case RunReturns(v) => if l.kind == Task && SenderOpen(l) then multiset{v} else multiset{}
    case _ => multiset{}
  }

  function Brought(log: seq<Event>, run: seq<Link>): multiset<Payload>
    requires |run| == |log| + 1
  {
    if log == [] then multiset{}
    else Brought(log[..|log| - 1], run[..|log|]) + Brings(run[|log| - 1], log[|log| - 1])
  }

  lemma OnceSends(l: Link, e: Event)
    requires SenderOpen(l) && l.kind == Once && !OfReceiver(e)
    ensures Next(l, e).sent == l.sent + Brings(l, e)
  {
  }

  lemma ManySends(l: Link, e: Event)
    requires SenderOpen(l) && l.kind == Many && !OfReceiver(e)
    ensures Next(l, e).sent == l.sent + Brings(l, e)
  {
  }

  lemma TaskSends(l: Link, e: Event)
    requires SenderOpen(l) && l.kind == Task && !OfReceiver(e)
    ensures Next(l, e).sent == l.sent + Brings(l, e)
  {
  }

  lemma SenderSends(l: Link, e: Event)
    requires SenderOpen(l) && !OfReceiver(e)
    ensures Next(l, e).sent == l.sent + Brings(l, e)
  {
    match l.kind
    case Once => OnceSends(l, e);
    case Many => ManySends(l, e);
    case Task => TaskSends(l, e);
  }

  lemma ManyReceiverSendsNothing(l: Link, e: Event)
    ensures ReceiverManyCall(l, e).sent == l.sent
  {
  }

  lemma OnceReceiverSendsNothing(l: Link, e: Event)
    ensures ReceiverOnceCall(l, e).sent == l.sent
  {
  }

  lemma ReceiverSendsNothing(l: Link, e: Event)
    requires OfReceiver(e)
    ensures Next(l, e).sent == l.sent
  {
    if l.kind == Many { ManyReceiverSendsNothing(l, e); } else { OnceReceiverSendsNothing(l, e); }
  }

  lemma StepSends(l: Link, e: Event)
    ensures Next(l, e).sent == l.sent + Brings(l, e)
  {
    if OfReceiver(e) { ReceiverSendsNothing(l, e); } else if SenderOpen(l) { SenderSends(l, e); }
  }

  /** The values that count as sent are those that the calls brought, and no others. */
  lemma {:induction false} SentIsWhatCallsBring(kind: Kind, log: seq<Event>, run: seq<Link>)
    requires LinkRun(kind, log, run)
    ensures run[|log|].sent == Brought(log, run)
  {
    if log != [] {
      Shorter(Fresh(kind), Next, log, run);
      SentIsWhatCallsBring(kind, log[..|log| - 1], run[..|log|]);
      StepSends(run[|log| - 1], log[|log| - 1]);
    }
  }

  /** A call of the receiving side finds a value in the cell: it takes exactly that value. */
  lemma ReceiveTakesTheValue(kind: Kind, log: seq<Event>, run: seq<Link>, e: Event)
    requires LinkRun(kind, log, run) && Avoids(log, run) && ReceiverOpen(run[|log|]) && run[|log|].mem.value.Full?
    requires e.Receive? || (e.Wait? && kind != Many) || (e.JoinPoll? && kind == Task)
    ensures var l, l' := run[|log|], Next(run[|log|], e);
      && l'.received == l.received + multiset{l.mem.value.value} && l'.mem.value.Empty?
      && (kind != Many ==> l'.receiver == Got(l.mem.value.value))
      && (SenderOpen(l) && l.mem.waker.Full? ==> l'.woken == l.woken + [l.mem.waker.value])
  {
    RunKeeps(kind, log, run, 0);
    TakesTheValue(run[|log|], e);
  }

  lemma TakesTheValue(l: Link, e: Event)
    requires Shape(l) && ReceiverOpen(l) && l.mem.value.Full?
    requires e.Receive? || (e.Wait? && l.kind != Many) || (e.JoinPoll? && l.kind == Task)
    ensures var l' := Next(l, e);
      && l'.received == l.received + multiset{l.mem.value.value} && l'.mem.value.Empty?
      && (l.kind != Many ==> l'.receiver == Got(l.mem.value.value))
      && (SenderOpen(l) && l.mem.waker.Full? ==> l'.woken == l.woken + [l.mem.waker.value])
  {
  }

  // The waker that a receiving call was given.
  function Given(e: Event): Option<Waker> {
    match e
    case Receive(wk) => wk
    case Wait(wk) => wk
    case JoinPoll(k) => Some(k)
    case _ => None
  }

  /** It finds none: with a waker it waits if and only if the sender is there, without a sender
      it learns that there will be no value, and only a call without a waker gives up. */
  lemma ReceiveWaitsForTheSender(kind: Kind, log: seq<Event>, run: seq<Link>, e: Event)
    requires LinkRun(kind, log, run) && Avoids(log, run) && ReceiverOpen(run[|log|]) && run[|log|].mem.value.Empty?
    requires e.Receive? || (e.Wait? && kind != Many) || (e.JoinPoll? && kind == Task)
    ensures var l, l' := run[|log|], Next(run[|log|], e);
      && l'.received == l.received
      && (if !SenderOpen(l) then l'.receiver.Incomplete?
          else if e == Receive(None) && kind != Many then l'.receiver.GaveUp?
          else ReceiverOpen(l'))
      && (SenderOpen(l) && Given(e).Some? ==>
            l'.rAsk == Asked(Given(e).value, |l'.woken|) && l'.mem.waker == Full(Given(e).value))
  {
    RunKeeps(kind, log, run, 0);
    WaitsForTheSender(run[|log|], e);
  }

  lemma WaitsForTheSender(l: Link, e: Event)
    requires Shape(l) && ReceiverOpen(l) && l.mem.value.Empty?
    requires e.Receive? || (e.Wait? && l.kind != Many) || (e.JoinPoll? && l.kind == Task)
    ensures var l' := Next(l, e);
      && l'.received == l.received
      && (if !SenderOpen(l) then l'.receiver.Incomplete?
          else if e == Receive(None) && l.kind != Many then l'.receiver.GaveUp?
          else ReceiverOpen(l'))
      && (SenderOpen(l) && Given(e).Some? ==>
            l'.rAsk == Asked(Given(e).value, |l'.woken|) && l'.mem.waker == Full(Given(e).value))
  {
  }

  lemma FlushWaits(l: Link, e: Event, k: Waker)
    requires Shape(l) && SenderOpen(l)
    requires (l.kind == Once && l.sender.Written? && e == PollSend(k)) || (l.kind == Many && e == NextPoll(k))
    ensures var l' := Next(l, e);
      if l.mem.value.Full? && ReceiverOpen(l) then
        && SenderOpen(l') && l'.returned == l.returned && l'.mem.value == l.mem.value
        && l'.mem.waker == Full(k) && l'.sAsk == Asked(k, |l'.woken|)
      else
        && l'.mem.value.Empty? && !l'.sAsk.Asked?
        && l'.returned == l.returned + if l.mem.value.Full? then multiset{l.mem.value.value} else multiset{}
  {
  }

  /** A later poll of a Flush waits if and only if the value is in the cell and the receiver is
      there; a value that the receiver will not take any more is given back. */
  lemma FlushWaitsForTheReceiver(kind: Kind, log: seq<Event>, run: seq<Link>, e: Event, k: Waker)
    requires LinkRun(kind, log, run) && Avoids(log, run) && SenderOpen(run[|log|])
    requires (kind == Once && run[|log|].sender.Written? && e == PollSend(k)) || (kind == Many && e == NextPoll(k))
    ensures var l, l' := run[|log|], Next(run[|log|], e);
      if l.mem.value.Full? && ReceiverOpen(l) then
        && SenderOpen(l') && l'.returned == l.returned && l'.mem.value == l.mem.value
        && l'.mem.waker == Full(k) && l'.sAsk == Asked(k, |l'.woken|)
      else
        && l'.mem.value.Empty? && !l'.sAsk.Asked?
        && l'.returned == l.returned + if l.mem.value.Full? then multiset{l.mem.value.value} else multiset{}
  {
    RunKeeps(kind, log, run, 0);
    FlushWaits(run[|log|], e, k);
  }

  // A call that writes `v`: handed over by the call, or held by the Flush that is polled.
  predicate Puts(l: Link, e: Event, v: Payload) {
    || (Brings(l, e) == multiset{v} && !e.Send?)
    || (l.kind == Once && e.PollSend? && l.sender == Loaded(v))
  }

  lemma PutsTheValue(l: Link, e: Event, v: Payload)
    requires Shape(l) && SenderOpen(l) && Puts(l, e, v) && !Corner(l, e)
    ensures var l' := Next(l, e);
      && (ReceiverOpen(l) && l.mem.value.Empty? ==>
          && l'.mem.value == Full(v) && l'.returned == l.returned && l'.dropped == l.dropped
          && (l.mem.waker.Full? ==> l'.woken == l.woken + [l.mem.waker.value]))
      && (!ReceiverOpen(l) || l.mem.value.Full? ==>
          && l'.mem.value == l.mem.value
          && l'.returned + l'.dropped == l.returned + l.dropped + multiset{v}
          && (l.kind != Task ==> l'.returned == l.returned + multiset{v}))
  {
    assert Brings(l, e) == multiset{v} && !e.Send? ==> v in Brings(l, e);
    match e
    case TrySend(w) => TryPutsTheValue(l, v);
    case FirstPoll(w, _) => assert w == v;
    case RunReturns(w) => assert w == v;
    case _ =>
  }

  lemma TryPutsTheValue(l: Link, v: Payload)
    requires Shape(l) && SenderOpen(l) && Puts(l, TrySend(v), v) && !Corner(l, TrySend(v))
    ensures var l' := Next(l, TrySend(v));
      && (ReceiverOpen(l) && l.mem.value.Empty? ==>
          && l'.mem.value == Full(v) && l'.returned == l.returned && l'.dropped == l.dropped
          && (l.mem.waker.Full? ==> l'.woken == l.woken + [l.mem.waker.value]))
      && (!ReceiverOpen(l) || l.mem.value.Full? ==>
          && l'.mem.value == l.mem.value && l'.dropped == l.dropped
          && l'.returned == l.returned + multiset{v})
  {
  }

  /** A call that writes a value leaves it in the cell if the receiver is there and the cell is
      empty, calling a receiver that waits, and gives it back otherwise; the result of a task
      that nobody waits for is dropped. */
  lemma SendPutsTheValue(kind: Kind, log: seq<Event>, run: seq<Link>, e: Event, v: Payload)
    requires LinkRun(kind, log, run) && Avoids(log, run)
    requires SenderOpen(run[|log|]) && Puts(run[|log|], e, v) && !Corner(run[|log|], e)
    ensures var l, l' := run[|log|], Next(run[|log|], e);
      && (ReceiverOpen(l) && l.mem.value.Empty? ==>
          && l'.mem.value == Full(v) && l'.returned == l.returned && l'.dropped == l.dropped
          && (l.mem.waker.Full? ==> l'.woken == l.woken + [l.mem.waker.value]))
      && (!ReceiverOpen(l) || l.mem.value.Full? ==>
          && l'.mem.value == l.mem.value
          && l'.returned + l'.dropped == l.returned + l.dropped + multiset{v}
          && (kind != Task ==> l'.returned == l.returned + multiset{v}))
  {
    RunKeeps(kind, log, run, 0);
    PutsTheValue(run[|log|], e, v);
  }

  // --- Tasks

  // The call that ended the body, and the body's outcome by it.
  predicate Ends(e: Event, b: Body) {
    match b
    case Completed(v) => e == RunReturns(v)
    case Panicked => e == RunPanics
    case Cancelled => e == DropTask
    case _ => false
  }

  lemma EndsByItsCall(l: Link, e: Event)
    requires KindFits(l) && l.kind == Task && l.body.Waiting?
    ensures Next(l, e).body.Waiting? || Ends(e, Next(l, e).body)
  {
  }

  /** A body that is no longer waiting was ended by the one call whose outcome it shows: the
      result is the value that the body returned. */
  lemma {:induction false} OutcomeIsInTheLog(log: seq<Event>, run: seq<Link>)
    requires LinkRun(Task, log, run) && !run[|log|].body.Waiting?
    ensures exists i :: 0 <= i < |log| && run[i].body.Waiting? && Ends(log[i], run[|log|].body)
  {
    var n := |log| - 1;
    assert log != [];
    Shorter(Fresh(Task), Next, log, run);
    TaskAvoids(log[..n], run[..|log|]);
    RunKeeps(Task, log[..n], run[..|log|], 0);
    if run[n].body.Waiting? {
      EndsByItsCall(run[n], log[n]);
    } else {
      OutcomeIsInTheLog(log[..n], run[..|log|]);
      SpentStays(run[n], log[n]);
      var i :| 0 <= i < n && run[..|log|][i].body.Waiting? && Ends(log[..n][i], run[n].body);
      assert run[i].body.Waiting? && Ends(log[i], run[|log|].body);
    }
  }

  /** What a joiner learns is what became of the body: Ok only with the value that the body
      returned, Incomplete only after a panic or a dropped handle. */
  lemma JoinerLearnsTheReturn(log: seq<Event>, run: seq<Link>)
    requires LinkRun(Task, log, run)
    ensures var r := run[|log|].receiver;
      && (r.Got? ==> exists i :: 0 <= i < |log| && run[i].body.Waiting? && log[i] == RunReturns(r.v))
      && (r.Incomplete? ==>
          exists i :: 0 <= i < |log| && run[i].body.Waiting? && (log[i] == RunPanics || log[i] == DropTask))
  {
    JoinerLearnsTheOutcome(log, run);
    if run[|log|].receiver.Got? || run[|log|].receiver.Incomplete? {
      OutcomeIsInTheLog(log, run);
      var i :| 0 <= i < |log| && run[i].body.Waiting? && Ends(log[i], run[|log|].body);
    }
  }
}
