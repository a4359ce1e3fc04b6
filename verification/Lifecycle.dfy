/** The life of one allocation shared by a sending and a receiving handle, call by call:
    `send_once` pairs, `channel` pairs, and `task_fn` pairs, with non-overlapping calls and
    no `cancel` of the receive side. */
module Lifecycle {
  import opened Cells
  import opened ChannelSteps
  import opened ChannelCalls
  import opened Runs

  datatype Kind = Once | Many | Task

  /** The sending handle: present, turned into a `Flush` that still holds its value, turned
      into a `Flush` whose value was written, or gone. */
  datatype Sender = Held | Loaded(v: Payload) | Written | SenderGone

  /** What the receiving handle is or has come to: a value, the news that there will be
      none, a poll that found nothing and closed the handle, or a plain drop. */
  datatype Receiver = Listening | Got(v: Payload) | Incomplete | GaveUp | ReceiverDropped

  datatype Body = NoBody | Waiting | Completed(result: Payload) | Panicked | Cancelled

  // Whether a handle's last poll answered Pending: the waker it was given, and how many
  // wakers had been called before.
  datatype Asked = Unasked | Asked(k: Waker, mark: nat)

  datatype Link = Link(
    kind: Kind, mem: Memory, sender: Sender, receiver: Receiver, body: Body,
    // how often the allocation was freed, and whether it was used or freed again afterwards
    frees: nat, misused: bool,
    // were both cells empty when it was freed
    clean: bool,
    // every value handed over, and where the values went
    sent: multiset<Payload>, received: multiset<Payload>,
    returned: multiset<Payload>, dropped: multiset<Payload>,
    // the wakers called, in order, and what each handle waits for
    woken: seq<Waker>, sAsk: Asked, rAsk: Asked)

  function Fresh(kind: Kind): Link {
    Link(kind, EMPTY, Held, Listening, if kind == Task then Waiting else NoBody,
         0, false, true, multiset{}, multiset{}, multiset{}, multiset{}, [], Unasked, Unasked)
  }

  datatype Event =
    // SendOnce, and the Flush it turns into
    | Send(v: Payload)
    | PollSend(k: Waker)
    | DropFlush
    // SendOnce and Sender
    | TrySend(v: Payload)
    | DropSender
    // a Flush borrowed from a Sender: first poll, later polls
    | FirstPoll(v: Payload, k: Waker)
    | NextPoll(k: Waker)
    // TaskFn
    | RunReturns(v: Payload)
    | RunPanics
    | DropTask
    // ReceiveOnce, Receiver, JoinTask
    | Receive(wk: Option<Waker>)
    | Wait(wk: Option<Waker>)
    | JoinPoll(k: Waker)
    | DropReceiver

  // Every access to the allocation goes through here, with the waker that it calls.
  function Use(l: Link, m: Memory, k: Option<Waker>): Link {
    l.(mem := m, misused := l.misused || l.frees > 0, woken := Woke(l.woken, k))
  }

  function Free(l: Link): Link {
    l.(frees := l.frees + 1, misused := l.misused || l.frees > 0,
       clean := l.mem.value.Empty? && l.mem.waker.Empty?)
  }

  function FreeIf(l: Link, last: bool): Link { if last then Free(l) else l }

  function Sent(l: Link, v: Payload): Link { l.(sent := l.sent + multiset{v}) }

  function Received(l: Link, v: Payload): Link { l.(received := l.received + multiset{v}) }

  function Returned(l: Link, v: Payload): Link { l.(returned := l.returned + multiset{v}) }

  function Dropped(l: Link, v: Payload): Link { l.(dropped := l.dropped + multiset{v}) }

  // `drop_one_side`, freeing the allocation when the other side is already gone.
  function Close(l: Link, isWriter: bool): Link {
    var (m, last, k) := DropCall(l.mem, isWriter);
    if !last then Use(l, m, k)
    else if l.mem.value.Full? then Free(Dropped(Use(l, m, k), l.mem.value.value))
    else Free(Use(l, m, k))
  }

  function AskedIf(l: Link, wk: Option<Waker>, pending: bool): Asked {
    if pending && wk.Some? then Asked(wk.value, |l.woken|) else Unasked
  }

  // `write` of a value that was just handed over, or that a Flush held.
  function Put(l: Link, v: Payload, wk: Option<Waker>, fin: bool): (Link, WriterResult) {
    var (m, r, k) := WriteCall(l.mem, v, wk, fin);
    var l' := Use(l, m, k).(sAsk := AskedIf(l, wk, r == WriteOk));
    (if r == WriteOk then l' else Returned(l', v), r)
  }

  function Flushed(l: Link, wk: Waker, fin: bool): (Link, WriterResult) {
    var (m, r, k) := FlushCall(l.mem, wk, fin);
    var l' := Use(l, m, k).(sAsk := AskedIf(l, Some(wk), r == FlushPending));
    (if r.FlushReady? && r.value.Some? then Returned(l', r.value.value) else l', r)
  }

  function Taken(l: Link, wk: Option<Waker>): (Link, ReaderResult) {
    var (m, r, k) := ReadCall(l.mem, wk, false);
    var l' := Use(l, m, k).(rAsk := AskedIf(l, wk, r == ReadPending));
    (if r.ReadReady? && r.value.Some? then Received(l', r.value.value) else l', r)
  }

  function Outcome(r: ReaderResult): Receiver
    requires r.ReadReady?
  {
    if r.value.Some? then Got(r.value.value) else if r.dropped then Incomplete else GaveUp
  }

  // SendOnce, before it is turned into a Flush or used up.
  function SendOnceCall(l: Link, e: Event): Link {
    match e
    case Send(v) => Sent(l, v).(sender := Loaded(v))
    case TrySend(v) =>
      var (l', r) := Put(Sent(l, v), v, None, true);
      FreeIf(l', r != WriteOk).(sender := SenderGone)
    case DropSender => Close(l, true).(sender := SenderGone)
    case _ => l
  }

  // The Flush of a SendOnce, which owns its side of the channel.
  function FlushOnceCall(l: Link, e: Event): Link {
    match (e, l.sender)
    case (PollSend(k), Loaded(v)) =>
      var (l', r) := Put(l, v, Some(k), true);
      if r.WriteErr? && r.dropped then Free(l').(sender := SenderGone) else l'.(sender := Written)
    case (PollSend(k), Written) =>
      var (l', r) := Flushed(l, k, true);
      if r.FlushReady? && r.dropped then Free(l').(sender := SenderGone) else l'
    case (DropFlush, Loaded(v)) =>
      Close(Dropped(l, v).(sender := SenderGone), true)
    case (DropFlush, Written) => Close(l, true).(sender := SenderGone)
    case _ => l
  }

  // Sender, and the Flush it lends itself to.
  function SenderManyCall(l: Link, e: Event): Link {
    match e
    case TrySend(v) =>
      var (l', r) := Put(Sent(l, v), v, None, false);
      if r.WriteErr? && r.dropped then Free(l').(sender := SenderGone) else l'
    case FirstPoll(v, k) => Put(Sent(l, v), v, Some(k), false).0
    case NextPoll(k) => Flushed(l, k, false).0
    case DropSender => Close(l, true).(sender := SenderGone)
    case _ => l
  }

  // TaskFn: run to its end, run into a panic (which the guard turns into a close), or dropped.
  function TaskCall(l: Link, e: Event): Link {
    match e
    case RunReturns(v) =>
      var (m, r, k) := WriteCall(l.mem, v, None, true);
      var l' := Use(Sent(l, v), m, k);
      (if r == WriteOk then l' else Free(Dropped(l', v))).(sender := SenderGone, body := Completed(v))
    case RunPanics => Close(l, true).(sender := SenderGone, body := Panicked)
    case DropTask => Close(l, true).(sender := SenderGone, body := Cancelled)
    case _ => l
  }

  function SenderCall(l: Link, e: Event): Link {
    if l.sender.SenderGone? then l
    else match l.kind
      case Once => if l.sender.Held? then SendOnceCall(l, e) else FlushOnceCall(l, e)
      case Many => SenderManyCall(l, e)
      case Task => TaskCall(l, e)
  }

  // Receiver: keeps listening until the sender is gone.
  function ReceiverManyCall(l: Link, e: Event): Link {
    match e
    case Receive(wk) =>
      var (l', r) := Taken(l, wk);
      if r.ReadReady? && r.dropped then Free(l').(receiver := Outcome(r)) else l'
    case DropReceiver => Close(l, false).(receiver := ReceiverDropped)
    case _ => l
  }

  // ReceiveOnce and JoinTask: a polling call that finds nothing ready closes the handle, a
  // waiting one does not; `JoinTask::poll` leaves the closing to the task.
  function ReceiverOnceCall(l: Link, e: Event): Link {
    match e
    case Receive(wk) =>
      var (l', r) := Taken(l, wk);
      if r.ReadPending? then l'
      else if r.ReadReady? && r.dropped then Free(l').(receiver := Outcome(r))
      else if r.ReadReady? then Close(l'.(receiver := Outcome(r)), false) else l'
    case Wait(wk) =>
      var (l', r) := Taken(l, wk);
      if r.ReadReady? && r.dropped then Free(l').(receiver := Outcome(r))
      else if r.ReadReady? && r.value.Some? then Close(l'.(receiver := Outcome(r)), false)
      else l'
    case JoinPoll(k) =>
      var (l', r) := Taken(l, Some(k));
      if l.kind != Task then l
      else if r.ReadReady? then FreeIf(l', r.dropped).(receiver := Outcome(r)) else l'
    case DropReceiver => Close(l, false).(receiver := ReceiverDropped)
    case _ => l
  }

  function ReceiverCall(l: Link, e: Event): Link {
    if !l.receiver.Listening? then l
    else if l.kind == Many then ReceiverManyCall(l, e) else ReceiverOnceCall(l, e)
  }

  predicate OfReceiver(e: Event) { e.Receive? || e.Wait? || e.JoinPoll? || e.DropReceiver? }

  function Next(l: Link, e: Event): Link {
    if OfReceiver(e) then ReceiverCall(l, e) else SenderCall(l, e)
  }

  // --- Invariant

  predicate SenderOpen(l: Link) { !l.sender.SenderGone? }

  predicate ReceiverOpen(l: Link) { l.receiver.Listening? }

  function One(v: Payload, of: Payload): nat { if v == of then 1 else 0 }

  // How often `v` is in the channel, or in a Flush that has not written it yet.
  function Inside(l: Link, v: Payload): nat {
    (if l.mem.value.Full? then One(l.mem.value.value, v) else 0)
    + (if l.sender.Loaded? then One(l.sender.v, v) else 0)
  }

  predicate MemoryFits(l: Link) {
    var w := l.mem.word;
    && AtRest(l.mem)
    && (w.active <==> SenderOpen(l) && ReceiverOpen(l))
    && (w.wake ==> w.active)
    && (l.kind != Many && SenderOpen(l) && !l.sender.Written? ==> !w.loaded)
    && (l.sender.Written? && w.active ==> w.loaded)
  }

  predicate KindFits(l: Link) {
    && (l.kind != Once ==> l.sender.Held? || l.sender.SenderGone?)
    && (l.kind == Task <==> !l.body.NoBody?)
    && (l.body.Waiting? ==> l.sender.Held?)
    && (l.kind == Task && l.sender.Held? ==> l.body.Waiting?)
  }

  predicate Shape(l: Link) {
    && KindFits(l) && !l.misused && l.clean
    && (l.frees == 0 ==> MemoryFits(l) && (SenderOpen(l) || ReceiverOpen(l)))
    && (l.frees > 0 ==> l.frees == 1 && !SenderOpen(l) && !ReceiverOpen(l) && l.mem.value.Empty?)
  }

  // Every value handed over is still inside, or went to exactly one place.
  predicate Balanced(l: Link, v: Payload) {
    l.sent[v] == l.received[v] + l.returned[v] + l.dropped[v] + Inside(l, v)
  }

  predicate Corner(l: Link, e: Event) {
    l.kind == Many && l.sender.Held? && e.TrySend? && !l.mem.word.active && l.mem.word.loaded
  }

  lemma SendOnceKeepsShape(l: Link, e: Event)
    requires Shape(l) && l.kind == Once && l.sender.Held?
    ensures Shape(SendOnceCall(l, e))
  {
  }

  lemma PollSendKeepsShape(l: Link, k: Waker)
    requires Shape(l) && l.kind == Once && (l.sender.Loaded? || l.sender.Written?)
    ensures Shape(FlushOnceCall(l, PollSend(k)))
  {
  }

  lemma FlushOnceKeepsShape(l: Link, e: Event)
    requires Shape(l) && l.kind == Once && (l.sender.Loaded? || l.sender.Written?)
    ensures Shape(FlushOnceCall(l, e))
  {
    if e.PollSend? { PollSendKeepsShape(l, e.k); }
  }

  lemma SenderManyKeepsShape(l: Link, e: Event)
    requires Shape(l) && l.kind == Many && SenderOpen(l) && !Corner(l, e)
    ensures Shape(SenderManyCall(l, e))
  {
  }

  lemma TaskKeepsShape(l: Link, e: Event)
    requires Shape(l) && l.kind == Task && SenderOpen(l)
    ensures Shape(TaskCall(l, e))
  {
  }

  lemma ReceiveManyKeepsShape(l: Link, wk: Option<Waker>)
    requires Shape(l) && l.kind == Many && ReceiverOpen(l)
    ensures Shape(ReceiverManyCall(l, Receive(wk)))
  {
  }

  lemma ReceiverManyKeepsShape(l: Link, e: Event)
    requires Shape(l) && l.kind == Many && ReceiverOpen(l)
    ensures Shape(ReceiverManyCall(l, e))
  {
    if e.Receive? { ReceiveManyKeepsShape(l, e.wk); }
  }

  lemma TryKeepsShape(l: Link)
    requires Shape(l) && l.kind != Many && ReceiverOpen(l)
    ensures Shape(ReceiverOnceCall(l, Receive(None)))
  {
  }

  lemma PollKeepsShape(l: Link, k: Waker)
    requires Shape(l) && l.kind != Many && ReceiverOpen(l)
    ensures Shape(ReceiverOnceCall(l, Receive(Some(k))))
  {
  }

  lemma WaitKeepsShape(l: Link, wk: Option<Waker>)
    requires Shape(l) && l.kind != Many && ReceiverOpen(l) && l.mem.word.loaded
    ensures Shape(ReceiverOnceCall(l, Wait(wk)))
  {
  }

  lemma IdleWaitKeepsShape(l: Link, wk: Option<Waker>)
    requires Shape(l) && l.kind != Many && ReceiverOpen(l) && !l.mem.word.loaded
    ensures Shape(ReceiverOnceCall(l, Wait(wk)))
  {
  }

  lemma ReceiverOnceKeepsShape(l: Link, e: Event)
    requires Shape(l) && l.kind != Many && ReceiverOpen(l)
    ensures Shape(ReceiverOnceCall(l, e))
  {
    match e
    case Receive(Some(k)) => PollKeepsShape(l, k);
    case Receive(None) => TryKeepsShape(l);
    case Wait(wk) => if l.mem.word.loaded { WaitKeepsShape(l, wk); } else { IdleWaitKeepsShape(l, wk); }
    case _ =>
  }

  lemma KeepsShape(l: Link, e: Event)
    requires Shape(l) && !Corner(l, e)
    ensures Shape(Next(l, e))
  {
    if OfReceiver(e) {
      if !ReceiverOpen(l) {
      } else if l.kind == Many { ReceiverManyKeepsShape(l, e);
      } else { ReceiverOnceKeepsShape(l, e); }
    } else if SenderOpen(l) {
      match l.kind
      case Once => if l.sender.Held? { SendOnceKeepsShape(l, e); } else { FlushOnceKeepsShape(l, e); }
      case Many => SenderManyKeepsShape(l, e);
      case Task => TaskKeepsShape(l, e);
    }
  }

  lemma SendOnceBalances(l: Link, e: Event, v: Payload)
    requires Shape(l) && Balanced(l, v) && l.kind == Once && l.sender.Held?
    ensures Balanced(SendOnceCall(l, e), v)
  {
  }

  lemma FlushOnceBalances(l: Link, e: Event, v: Payload)
    requires Shape(l) && Balanced(l, v) && l.kind == Once && (l.sender.Loaded? || l.sender.Written?)
    ensures Balanced(FlushOnceCall(l, e), v)
  {
  }

  lemma ClosedBalances(l: Link, isWriter: bool, v: Payload)
    requires Shape(l) && Balanced(l, v) && l.frees == 0
    ensures Balanced(Close(l, isWriter), v)
  {
  }

  lemma TrySendBalances(l: Link, w: Payload, v: Payload)
    requires Shape(l) && Balanced(l, v) && l.kind == Many && SenderOpen(l)
    ensures Balanced(SenderManyCall(l, TrySend(w)), v)
  {
  }

  lemma SenderManyBalances(l: Link, e: Event, v: Payload)
    requires Shape(l) && Balanced(l, v) && l.kind == Many && SenderOpen(l)
    ensures Balanced(SenderManyCall(l, e), v)
  {
    match e
    case DropSender => ClosedBalances(l, true, v);
    case TrySend(w) => TrySendBalances(l, w, v);
    case _ =>
  }

  lemma TaskBalances(l: Link, e: Event, v: Payload)
    requires Shape(l) && Balanced(l, v) && l.kind == Task && SenderOpen(l)
    ensures Balanced(TaskCall(l, e), v)
  {
  }

  lemma ReceiverManyBalances(l: Link, e: Event, v: Payload)
    requires Shape(l) && Balanced(l, v) && l.kind == Many && ReceiverOpen(l)
    ensures Balanced(ReceiverManyCall(l, e), v)
  {
  }

  lemma PolledBalances(l: Link, wk: Option<Waker>, v: Payload)
    requires Shape(l) && Balanced(l, v) && l.kind != Many && ReceiverOpen(l)
    ensures Balanced(ReceiverOnceCall(l, Receive(wk)), v)
  {
  }

  lemma ReceiverOnceBalances(l: Link, e: Event, v: Payload)
    requires Shape(l) && Balanced(l, v) && l.kind != Many && ReceiverOpen(l)
    ensures Balanced(ReceiverOnceCall(l, e), v)
  {
    if e.Receive? { PolledBalances(l, e.wk, v); }
  }

  lemma KeepsBalance(l: Link, e: Event, v: Payload)
    requires Shape(l) && Balanced(l, v)
    ensures Balanced(Next(l, e), v)
  {
    if OfReceiver(e) {
      if !ReceiverOpen(l) {
      } else if l.kind == Many { ReceiverManyBalances(l, e, v);
      } else { ReceiverOnceBalances(l, e, v); }
    } else if SenderOpen(l) {
      match l.kind
      case Once => if l.sender.Held? { SendOnceBalances(l, e, v); } else { FlushOnceBalances(l, e, v); }
      case Many => SenderManyBalances(l, e, v);
      case Task => TaskBalances(l, e, v);
    }
  }

  // --- Tasks: what the joiner has been told, and what still waits for it

  predicate Joined(l: Link) {
    l.kind == Task ==>
      && (l.receiver.Got? ==> l.body == Completed(l.receiver.v))
      && (l.receiver.Incomplete? ==> l.body.Panicked? || l.body.Cancelled?)
      && (ReceiverOpen(l) && !SenderOpen(l) ==>
          if l.body.Completed? then l.mem.value == Full(l.body.result) else l.mem.value.Empty?)
  }

  lemma KeepsJoined(l: Link, e: Event)
    requires Shape(l) && Joined(l) && l.kind == Task
    ensures Joined(Next(l, e))
  {
  }

  // --- Whole runs

  ghost predicate LinkRun(kind: Kind, log: seq<Event>, run: seq<Link>) {
    IsRun(Fresh(kind), Next, log, run)
  }

  // No `try_send` after the receiver went away and left a value behind.
  predicate Avoids(log: seq<Event>, run: seq<Link>)
    requires |run| == |log| + 1
  {
    forall i :: 0 <= i < |log| ==> !Corner(run[i], log[i])
  }

  lemma SenderKeepsKind(l: Link, e: Event)
    ensures SenderCall(l, e).kind == l.kind
  {
  }

  lemma ReceiverKeepsKind(l: Link, e: Event)
    ensures ReceiverCall(l, e).kind == l.kind
  {
  }

  lemma KeepsKind(l: Link, e: Event)
    ensures Next(l, e).kind == l.kind
  {
    if OfReceiver(e) { ReceiverKeepsKind(l, e); } else { SenderKeepsKind(l, e); }
  }

  lemma KeepsAll(l: Link, e: Event, v: Payload)
    requires Shape(l) && Balanced(l, v) && Joined(l) && !Corner(l, e)
    ensures var l' := Next(l, e); l'.kind == l.kind && Shape(l') && Balanced(l', v) && Joined(l')
  {
    KeepsKind(l, e);
    KeepsShape(l, e);
    KeepsBalance(l, e, v);
    if l.kind == Task { KeepsJoined(l, e); }
  }

  lemma {:induction false} RunKeeps(kind: Kind, log: seq<Event>, run: seq<Link>, v: Payload)
    requires LinkRun(kind, log, run) && Avoids(log, run)
    ensures var l := run[|log|]; l.kind == kind && Shape(l) && Balanced(l, v) && Joined(l)
  {
    if log != [] {
      Shorter(Fresh(kind), Next, log, run);
      RunKeeps(kind, log[..|log| - 1], run[..|log|], v);
      KeepsAll(run[|log| - 1], log[|log| - 1], v);
    }
  }

  /** The allocation is freed exactly once, by whoever leaves last, with both cells empty,
      and is never used afterwards; every value handed over was received, returned or
      dropped exactly once, or is still inside. */
  lemma FreedExactlyOnce(kind: Kind, log: seq<Event>, run: seq<Link>, v: Payload)
    requires LinkRun(kind, log, run) && Avoids(log, run)
    ensures var l := run[|log|];
      && l.frees == (if SenderOpen(l) || ReceiverOpen(l) then 0 else 1)
      && !l.misused && l.clean
      && l.sent[v] == l.received[v] + l.returned[v] + l.dropped[v] + Inside(l, v)
      && (l.frees == 1 ==> Inside(l, v) == 0)
  {
    RunKeeps(kind, log, run, v);
  }

  /** A task body is run or dropped exactly once, and a joiner that did not give up early
      is told Ok, with the body's own result, if and only if the body completed. */
  lemma JoinerLearnsTheOutcome(log: seq<Event>, run: seq<Link>)
    requires LinkRun(Task, log, run)
    ensures var l := run[|log|];
      && (l.body.Waiting? <==> SenderOpen(l))
      && (forall v :: l.receiver == Got(v) ==> l.body == Completed(v))
      && (l.receiver.Incomplete? ==> l.body.Panicked? || l.body.Cancelled?)
  {
    TaskAvoids(log, run);
    RunKeeps(Task, log, run, 0);
  }

  /** Once it was run, or dropped, or has panicked, a body stays as it is for the rest of the run. */
  lemma {:induction false} BodyIsSpentOnce(log: seq<Event>, run: seq<Link>, i: nat)
    requires LinkRun(Task, log, run) && i <= |log| && !run[i].body.Waiting?
    ensures run[|log|].body == run[i].body
  {
    if i < |log| {
      Shorter(Fresh(Task), Next, log, run);
      BodyIsSpentOnce(log[..|log| - 1], run[..|log|], i);
      TaskAvoids(log[..|log| - 1], run[..|log|]);
      RunKeeps(Task, log[..|log| - 1], run[..|log|], 0);
      SpentStays(run[|log| - 1], log[|log| - 1]);
    }
  }

  lemma SpentStays(l: Link, e: Event)
    requires KindFits(l) && l.kind == Task && !l.body.Waiting?
    ensures Next(l, e).body == l.body
  {
  }

  lemma {:induction false} TaskAvoids(log: seq<Event>, run: seq<Link>)
    requires LinkRun(Task, log, run)
    ensures Avoids(log, run) && run[|log|].kind == Task
  {
    if log != [] {
      Shorter(Fresh(Task), Next, log, run);
      TaskAvoids(log[..|log| - 1], run[..|log|]);
      KeepsKind(run[|log| - 1], log[|log| - 1]);
      AvoidsOneMore(log, run);
    }
  }

  lemma AvoidsOneMore(log: seq<Event>, run: seq<Link>)
    requires |run| == |log| + 1 && log != []
    ensures Avoids(log, run) <==>
      Avoids(log[..|log| - 1], run[..|log|]) && !Corner(run[|log| - 1], log[|log| - 1])
  {
    var front := log[..|log| - 1];
    if Avoids(front, run[..|log|]) && !Corner(run[|log| - 1], log[|log| - 1]) {
      forall i | 0 <= i < |log| ensures !Corner(run[i], log[i]) {
        if i < |front| { assert !Corner(run[..|log|][i], front[i]); }
      }
    } else if !Avoids(front, run[..|log|]) {
      var i :| 0 <= i < |front| && Corner(run[..|log|][i], front[i]);
      assert Corner(run[i], log[i]);
    }
  }

  /** The cells are empty when the allocation is freed exactly in the runs in which no
      `try_send` meets a closed channel with a value left in it. */
  lemma {:induction false} CleanIffAvoids(kind: Kind, log: seq<Event>, run: seq<Link>)
    requires LinkRun(kind, log, run)
    ensures run[|log|].clean <==> Avoids(log, run)
    ensures !run[|log|].clean ==> !SenderOpen(run[|log|]) && !ReceiverOpen(run[|log|])
  {
    if log != [] {
      var rest, l := log[..|log| - 1], run[|log| - 1];
      Shorter(Fresh(kind), Next, log, run);
      CleanIffAvoids(kind, rest, run[..|log|]);
      assert run[..|log|][|rest|] == l;
      AvoidsOneMore(log, run);
      if Avoids(rest, run[..|log|]) {
        RunKeeps(kind, rest, run[..|log|], 0);
        if Corner(l, log[|log| - 1]) { SpoiltCall(l, log[|log| - 1].v); } else { RunKeeps(kind, log, run, 0); }
      } else {
        GoneStays(l, log[|log| - 1]);
      }
    }
  }

  // Once both handles are gone nothing changes any more.
  lemma GoneStays(l: Link, e: Event)
    requires !SenderOpen(l) && !ReceiverOpen(l)
    ensures Next(l, e) == l
  {
  }

  /** It does happen: send, let the receiver go, send again; the first value is lost. */
  lemma SpoiltRun(v: Payload, w: Payload)
    ensures var l := Next(Next(Next(Fresh(Many), TrySend(v)), DropReceiver), TrySend(w));
      l.frees == 1 && !l.clean && l.mem.value == Full(v) && l.received[v] + l.dropped[v] == 0
  {
    var l := Fresh(Many);
    var l1 := l.(sent := multiset{v}, mem := Memory(FRESH.(loaded := true), Full(v), Empty));
    assert Next(l, TrySend(v)) == l1;
    var l2 := l1.(receiver := ReceiverDropped, mem := Memory(DONE.(loaded := true), Full(v), Empty));
    assert Next(l1, DropReceiver) == l2;
    SpoiltCall(l2, w);
  }

  lemma SpoiltCall(l: Link, w: Payload)
    requires Shape(l) && l.frees == 0 && Corner(l, TrySend(w))
    ensures var l' := Next(l, TrySend(w));
      && l'.frees == 1 && !l'.clean && l'.mem == l.mem && l'.received == l.received && l'.dropped == l.dropped
      && !SenderOpen(l') && !ReceiverOpen(l')
  {
  }
}
