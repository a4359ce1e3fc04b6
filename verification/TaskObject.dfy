/** Tasks in the form of their source: one allocation with the body and the channel, a handle
    that runs or drops the body, and a handle that fetches the result.  Every call is an event
    of the lifecycle. */
module TaskObject {
  import opened Cells
  import opened ChannelSteps
  import opened ChannelCalls
  import opened ChannelObject
  import opened Lifecycle

  // What the closure does when it is called.
  datatype Closure = Returning(v: Payload) | Panicking

  datatype Result = Ok(v: Payload) | Err(e: RecvError)
  datatype RecvError = Incomplete | Terminated

  // What the thread with the `TaskFn` does leaves the other handle as it is, and nothing is
  // left for it to do afterwards.
  lemma ElsewhereKeeps(l: Link, e: Lifecycle.Event)
    requires l.kind == Task && Shape(l) && Joined(l) && !OfReceiver(e)
    ensures var l' := Lifecycle.Next(l, e);
      && l'.kind == Task && Shape(l') && Joined(l') && l'.receiver == l.receiver
      && (!l.body.Waiting? ==> l' == l)
  {
    KeepsKind(l, e);
    KeepsShape(l, e);
    KeepsJoined(l, e);
  }

  class TaskInner {
    const channel: Channel
    var body: Option<Closure>
    // How often the allocation was freed.
    var frees: nat
    ghost var l: Link

    ghost predicate Valid()
      reads this, channel
    {
      && l.kind == Task && Shape(l) && Joined(l)
      && l.mem == channel.View() && l.woken == channel.called
      && l.frees == frees && (body.Some? <==> l.body.Waiting?)
    }

    // `task_fn`: both handles exist.
    constructor (f: Closure)
      ensures Valid() && l == Fresh(Task) && body == Some(f) && fresh(channel)
    {
      channel := new Channel(0);
      body, frees, l := Some(f), 0, Fresh(Task);
    }

    // The event that a call amounts to.
    ghost method Did(e: Lifecycle.Event)
      requires l.kind == Task && Shape(l) && Joined(l)
      requires Lifecycle.Next(l, e).mem == channel.View() && Lifecycle.Next(l, e).woken == channel.called
      requires Lifecycle.Next(l, e).frees == frees
      requires body.Some? <==> Lifecycle.Next(l, e).body.Waiting?
      modifies this`l
      ensures Valid() && l == Lifecycle.Next(old(l), e)
    {
      KeepsKind(l, e);
      KeepsShape(l, e);
      KeepsJoined(l, e);
      l := Lifecycle.Next(l, e);
    }

    // Drop the box.
    method DropTask()
      modifies this`frees
      ensures frees == old(frees) + 1
    {
      frees := frees + 1;
    }

    // The receiving side goes: it closes unless it was told that the sender has, and the last
    // one frees.
    method Leave(dropped: bool)
      requires !dropped ==> AtRest(channel.View())
      modifies this`frees, channel
      ensures var (m, last, k) := if dropped then (old(channel.View()), true, None)
                                  else DropCall(old(channel.View()), false);
        && channel.View() == m && channel.Called(old(channel.called), k)
        && frees == old(frees) + if last then 1 else 0
    {
      var last := dropped;
      if !last {
        last := channel.DropOneSide(false);
      }
      if last {
        DropTask();
      }
    }

    // The `TaskFn` goes without a result: by a panic or by being dropped.
    method CloseTask(e: Lifecycle.Event)
      requires l.kind == Task && Shape(l) && Joined(l) && l.mem == channel.View() && l.woken == channel.called
      requires SenderOpen(l) && l.frees == frees && body == None && (e == RunPanics || e == Lifecycle.Event.DropTask)
      modifies this, channel
      ensures Valid() && body == None && l == Lifecycle.Next(old(l), e)
      ensures frees == old(frees) + (if old(ReceiverOpen(l)) then 0 else 1)
      ensures channel.value.Empty?
      ensures old(ReceiverOpen(l) && channel.waker.Full?) ==>
        channel.called == old(channel.called) + [old(channel.waker.value)]
    {
      var last := channel.DropOneSide(true);
      if last {
        DropTask();
      }
      Did(e);
    }

    // `TaskFn::run`, with the guard that stands in for a panicking body.
    method Run()
      requires Valid() && SenderOpen(l)
      modifies this, channel
      ensures Valid() && body == None
      ensures match old(body.value)
              case Returning(v) => l.body == Completed(v) && (ReceiverOpen(l) ==> channel.value == Full(v))
              case Panicking => l.body == Panicked && channel.value.Empty?
      ensures frees == old(frees) + (if old(ReceiverOpen(l)) then 0 else 1)
      ensures old(ReceiverOpen(l) && channel.waker.Full?) ==>
        channel.called == old(channel.called) + [old(channel.waker.value)]
      ensures l == Lifecycle.Next(old(l), match old(body.value) case Returning(v) => RunReturns(v)
                                                                  case Panicking => RunPanics)
    {
      var task := body.value;
      body := None;
      match task
      case Returning(v) =>
        var r := channel.Write(v, None, true);
        if r != WriteOk {
          DropTask();
        }
        Did(RunReturns(v));
      case Panicking =>
        CloseTask(RunPanics);
    }

    // `TaskFn::drop`
    method Cancel()
      requires Valid() && SenderOpen(l)
      modifies this, channel
      ensures Valid() && body == None
      ensures l.body == Cancelled && channel.value.Empty?
      ensures frees == old(frees) + (if old(ReceiverOpen(l)) then 0 else 1)
      ensures old(ReceiverOpen(l) && channel.waker.Full?) ==>
        channel.called == old(channel.called) + [old(channel.waker.value)]
      ensures l == Lifecycle.Next(old(l), Lifecycle.Event.DropTask)
    {
      body := None;
      CloseTask(Lifecycle.Event.DropTask);
    }

    // The thread that has the `TaskFn` may run it or drop it, or do nothing yet.
    method Elsewhere()
      requires Valid()
      modifies this, channel
      ensures Valid() && l.receiver == old(l).receiver && (old(body).None? ==> l == old(l) && body == None)
    {
    }
  }

  class JoinTask {
    // None once the result was fetched.
    var task: Option<TaskInner>
    ghost const inner: TaskInner

    ghost predicate Valid()
      reads this, inner, inner.channel
    {
      inner.Valid() && task == if ReceiverOpen(inner.l) then Some(inner) else None
    }

    constructor (t: TaskInner)
      requires t.Valid() && ReceiverOpen(t.l)
      ensures Valid() && inner == t && task == Some(t)
    {
      task, inner := Some(t), t;
    }

    /** `Future::poll`: Ok with the body's own result if and only if the body completed. */
    method Poll(k: Waker) returns (r: Option<Result>)
      requires Valid()
      modifies this, inner, inner.channel
      ensures Valid()
      ensures old(task).None? ==> r == Some(Err(Terminated))
      ensures old(task).Some? ==> r == match inner.l.body
                                       case Completed(v) => Some(Ok(v))
                                       case Waiting => None
                                       case _ => Some(Err(RecvError.Incomplete))
      ensures r.Some? <==> task.None?
      ensures r.None? ==> inner.l.rAsk == Asked(k, |inner.channel.called|) && inner.channel.waker == Full(k)
      ensures inner.body == old(inner.body) && inner.l.body == old(inner.l.body)
    {
      if task.None? {
        return Some(Err(Terminated));
      }
      var t := task.value;
      task := None;
      var read := t.channel.Read(Some(k), false);
      if read.ReadReady? {
        if read.dropped {
          t.DropTask();
        }
        t.Did(JoinPoll(k));
        return Some(if read.value.Some? then Ok(read.value.value) else Err(RecvError.Incomplete));
      }
      t.Did(JoinPoll(k));
      task := Some(t);
      return None;
    }

    /** `try_join`: on a task that has not finished it gives up instead of reporting Pending. */
    method TryJoin() returns (r: Option<Result>)
      requires Valid()
      modifies this, inner, inner.channel
      ensures Valid() && r.Some? && task.None?
      ensures old(task).None? ==> r == Some(Err(Terminated))
      ensures old(task).Some? ==> r.value == match inner.l.body
                                             case Completed(v) => Ok(v)
                                             case _ => Err(RecvError.Incomplete)
      ensures old(task).Some? && inner.l.body.Waiting? ==> inner.l.receiver.GaveUp? && inner.frees == 0
    {
      if task.None? {
        return Some(Err(Terminated));
      }
      var t := task.value;
      task := None;
      var read := t.channel.Read(None, false);
      if read.ReadReady? {
        t.Leave(read.dropped);
        t.Did(Receive(None));
        return Some(if read.value.Some? then Ok(read.value.value) else Err(RecvError.Incomplete));
      }
      assert false; // the handle would be kept, but nobody holds the waker lock
      return None;
    }

    /** `join`: one read without a waker, and then reads with one, between which the other
        thread runs, until the task has ended. */
    method Join(k: Waker, turns: nat) returns (r: Option<Result>)
      requires Valid()
      modifies this, inner, inner.channel
      ensures Valid()
      ensures old(task).None? ==> r == Some(Err(Terminated))
      ensures old(task).Some? && r.Some? ==> r.value == match inner.l.body
                                             case Completed(v) => Ok(v)
                                             case _ => Err(RecvError.Incomplete)
      ensures old(task).Some? && r.Some? ==> task.None? && !inner.l.body.Waiting? && inner.frees == 1
      ensures !old(inner.l.body).Waiting? ==> r.Some?
    {
      if task.None? {
        return Some(Err(Terminated));
      }
      r := WaitRead(None);
      for turn := 0 to turns
        invariant Valid() && (r.Some? <==> task.None?)
        invariant r.Some? ==> Told(r.value)
        invariant !old(inner.l.body).Waiting? ==> r.Some?
      {
        if r.Some? {
          return;
        }
        task.value.Elsewhere();
        r := WaitRead(Some(k));
      }
    }

    ghost predicate Told(r: Result)
      reads inner
    {
      && !inner.l.body.Waiting? && inner.frees == 1
      && r == match inner.l.body case Completed(v) => Ok(v) case _ => Err(RecvError.Incomplete)
    }

    // One read of `wait_read`, and what `join` does with a result.
    method WaitRead(wk: Option<Waker>) returns (r: Option<Result>)
      requires Valid() && task.Some?
      modifies this, inner, inner.channel
      ensures Valid() && (r.Some? <==> task.None?)
      ensures r.Some? ==> Told(r.value)
      ensures inner.l.body == old(inner.l.body) && (r.None? ==> inner.l.body.Waiting?)
    {
      var t := task.value;
      var read := t.channel.Read(wk, false);
      r := None;
      if read.ReadReady? && (read.value.Some? || read.dropped) {
        t.Leave(read.dropped);
        r := Some(if read.value.Some? then Ok(read.value.value) else Err(RecvError.Incomplete));
        task := None;
      }
      t.Did(Wait(wk));
    }

    // The receiving handle goes away without a result.
    method Drop()
      requires Valid()
      modifies this, inner, inner.channel
      ensures Valid()
      ensures inner.l == if old(task).Some? then Lifecycle.Next(old(inner.l), DropReceiver) else old(inner.l)
    {
      if task.Some? {
        var t := task.value;
        var last := t.channel.DropOneSide(false);
        if last {
          t.DropTask();
        }
        t.Did(DropReceiver);
        task := None;
      }
    }
  }
}
