/** Generators and what they mean, without any polling.  A generator sends items, waits for
    events from outside, branches, fails (`?` in `try_stream!`), and polls other streams in
    `while let Some(x) = inner.next().await` loops, nested to any depth. */
module StreamMeaning {
  import opened Cells

  datatype Item = Good(value: int) | Bad(error: int)

  // The items bound by the enclosing loops, the innermost last.
  type Env = seq<Item>

  datatype Prog =
    | Done
    | Send(item: Env -> Item, rest: Prog)
    | Pause(rest: Prog)
    | Fail(error: Env -> int)
    | If(test: Env -> bool, yes: Prog, no: Prog)
    | Each(inner: Prog, body: Prog, rest: Prog)

  /** What somebody who polls sees, poll by poll: an item, or None for Pending; `failed` when
      the generator returned an error, which ends it wherever it stands. */
  type Seen = Option<Item>
  datatype Trace = Trace(events: seq<Seen>, failed: bool)

  const NOTHING := Trace([], false)

  function Then(a: Trace, b: Trace): Trace {
    if a.failed then a else Trace(a.events + b.events, b.failed)
  }

  function Means(p: Prog, env: Env): Trace
    decreases p, 0
  {
    match p
    case Done => NOTHING
    case Send(item, rest) => Then(Trace([Some(item(env))], false), Means(rest, env))
    case Pause(rest) => Then(Trace([None], false), Means(rest, env))
    case Fail(error) => Trace([Some(Bad(error(env)))], true)
    case If(test, yes, no) => if test(env) then Means(yes, env) else Means(no, env)
    case Each(inner, body, rest) => Then(Over(body, env, Means(inner, env).events), Means(rest, env))
  }

  // The body of a loop, once for each item; the loop waits when the inner stream does.
  function Over(body: Prog, env: Env, events: seq<Seen>): Trace
    decreases body, 1 + |events|
  {
    if events == [] then NOTHING
    else if events[0].None? then Then(Trace([None], false), Over(body, env, events[1..]))
    else Then(Means(body, env + [events[0].value]), Over(body, env, events[1..]))
  }

  lemma ThenIsAssociative(a: Trace, b: Trace, c: Trace)
    ensures Then(Then(a, b), c) == Then(a, Then(b, c))
  {
    if !a.failed && !b.failed {
      assert a.events + b.events + c.events == a.events + (b.events + c.events);
    }
  }

  lemma ThenNothing(a: Trace)
    ensures Then(a, NOTHING) == a && Then(NOTHING, a) == a
  {
    assert a.events + [] == a.events && [] + a.events == a.events;
  }

  function Items(events: seq<Seen>): seq<Item> {
    if events == [] then []
    else (if events[0].Some? then [events[0].value] else []) + Items(events[1..])
  }

  lemma {:induction false} ItemsAppend(a: seq<Seen>, b: seq<Seen>)
    ensures Items(a + b) == Items(a) + Items(b)
  {
    if a == [] {
      assert a + b == b;
    } else {
      ItemsAppend(a[1..], b);
      assert (a + b)[1..] == a[1..] + b;
    }
  }

  // A generator of `try_stream!`: `send!` wraps its value in Ok.
  ghost predicate SendsGood(p: Prog) {
    match p
    case Done => true
    case Send(item, rest) => (forall env :: item(env).Good?) && SendsGood(rest)
    case Pause(rest) => SendsGood(rest)
    case Fail(_) => true
    case If(_, yes, no) => SendsGood(yes) && SendsGood(no)
    case Each(_, body, rest) => SendsGood(body) && SendsGood(rest)
  }

  // Ok items, and one Err at the very end exactly if the generator failed.
  predicate TryShaped(t: Trace) {
    && (forall k :: 0 <= k < |t.events| ==>
          (t.events[k].Some? && t.events[k].value.Bad? <==> t.failed && k == |t.events| - 1))
    && (t.failed ==> |t.events| > 0)
  }

  lemma TryShapedThen(a: Trace, b: Trace)
    requires TryShaped(a) && TryShaped(b)
    ensures TryShaped(Then(a, b))
  {
  }

  /** `try_stream!`: Ok items, then at most one Err, which is the last thing seen. */
  lemma {:induction false} TryStreamEndsAtItsError(p: Prog, env: Env)
    requires SendsGood(p)
    ensures TryShaped(Means(p, env))
    decreases p, 0
  {
    match p
    case Done =>
    case Send(item, rest) => TryStreamEndsAtItsError(rest, env);
    case Pause(rest) => TryStreamEndsAtItsError(rest, env);
    case Fail(error) =>
    case If(test, yes, no) => TryStreamEndsAtItsError(if test(env) then yes else no, env);
    case Each(inner, body, rest) =>
      TryShapedOver(body, env, Means(inner, env).events);
      TryStreamEndsAtItsError(rest, env);
      TryShapedThen(Over(body, env, Means(inner, env).events), Means(rest, env));
  }

  lemma {:induction false} TryShapedOver(body: Prog, env: Env, events: seq<Seen>)
    requires SendsGood(body)
    ensures TryShaped(Over(body, env, events))
    decreases body, 1 + |events|
  {
    if events != [] {
      TryShapedOver(body, env, events[1..]);
      if events[0].Some? {
        TryStreamEndsAtItsError(body, env + [events[0].value]);
        TryShapedThen(Means(body, env + [events[0].value]), Over(body, env, events[1..]));
      }
    }
  }

  // The item bound by the innermost loop.
  function Last(env: Env): Item { if env == [] then Good(0) else env[|env| - 1] }
  function LastError(env: Env): int { if Last(env).Bad? then Last(env).error else 0 }
  predicate LastIsBad(env: Env) { Last(env).Bad? }

  const ECHO := Send(Last, Done)
  const ASK := If(LastIsBad, Fail(LastError), Send(Last, Done))

  /** `while let Some(x) = inner.next().await { send!(x) }`, in as many streams around the first. */
  function Forward(n: nat, body: Prog, p: Prog): Prog {
    if n == 0 then p else Each(Forward(n - 1, body, p), body, Done)
  }

  lemma LoopBodies(env: Env, x: Item)
    ensures Means(ECHO, env + [x]) == Trace([Some(x)], false)
    ensures Means(ASK, env + [x]) == Trace([Some(x)], x.Bad?)
  {
    var env' := env + [x];
    assert Last(env') == x;
    assert Means(Done, env') == NOTHING;
    assert Last(env') == ECHO.item(env');
    ThenNothing(Trace([Some(x)], false));
  }

  lemma {:induction false} EchoOver(env: Env, events: seq<Seen>)
    ensures Over(ECHO, env, events) == Trace(events, false)
  {
    if events != [] {
      EchoOver(env, events[1..]);
      assert events == [events[0]] + events[1..];
      if events[0].Some? {
        LoopBodies(env, events[0].value);
      }
    }
  }

  // `send!(x?)`: an error is passed on as the end of the loop.
  lemma {:induction false} AskOver(env: Env, t: Trace)
    requires TryShaped(t)
    ensures Over(ASK, env, t.events) == t
    decreases |t.events|
  {
    if t.events != [] {
      var x := t.events[0];
      assert t.events == [x] + t.events[1..];
      if |t.events| > 1 || !t.failed {
        AskOver(env, Trace(t.events[1..], t.failed));
      }
      if x.Some? {
        LoopBodies(env, x.value);
      }
    }
  }

  lemma OneLoop(p: Prog, body: Prog, env: Env)
    ensures Means(Each(p, body, Done), env) == Over(body, env, Means(p, env).events)
  {
    assert Means(Done, env) == NOTHING;
    ThenNothing(Over(body, env, Means(p, env).events));
  }

  /** Passing a stream through any number of other streams changes nothing, not even the
      polls at which it is Pending. */
  lemma {:induction false} EchoingIsIdentity(n: nat, p: Prog, env: Env)
    ensures Means(Forward(n, ECHO, p), env).events == Means(p, env).events
  {
    if n > 0 {
      var q := Forward(n - 1, ECHO, p);
      EchoingIsIdentity(n - 1, p, env);
      OneLoop(q, ECHO, env);
      EchoOver(env, Means(q, env).events);
    }
  }

  lemma {:induction false} AskingIsIdentity(n: nat, p: Prog, env: Env)
    requires SendsGood(p)
    ensures Means(Forward(n, ASK, p), env) == Means(p, env)
  {
    if n > 0 {
      var q := Forward(n - 1, ASK, p);
      AskingIsIdentity(n - 1, p, env);
      OneLoop(q, ASK, env);
      TryStreamEndsAtItsError(p, env);
      AskOver(env, Means(q, env));
    }
  }
}
