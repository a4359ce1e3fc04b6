/** What is left of a stream between two polls, and how much work that is. */
module StreamState {
  import opened Cells
  import opened StreamMeaning

  /** The generator's future: the flush it awaits, the code it runs next, and the loops
      around that code, each with the stream it polls. */
  datatype Fut = Fut(flush: Option<bool>, now: Prog, env: Env, loops: Loops)
  datatype Loops = NoLoop | Loop(inner: State, body: Prog, rest: Prog, env: Env, outer: Loops)
  datatype State = Init(gen: Prog, env: Env) | Poll(fut: Fut) | Complete

  function LeftOf(s: State): seq<Seen>
    decreases s, 1
  {
    match s
    case Init(p, env) => Means(p, env).events
    case Poll(f) => LeftOfFut(f).events
    case Complete => []
  }

  function LeftOfFut(f: Fut): Trace
    decreases f, 1
  {
    Then(Means(f.now, f.env), LeftOfLoops(f.loops))
  }

  function LeftOfLoops(loops: Loops): Trace
    decreases loops, 1
  {
    match loops
    case NoLoop => NOTHING
    case Loop(inner, body, rest, env, outer) =>
      Then(Over(body, env, LeftOf(inner)), Then(Means(rest, env), LeftOfLoops(outer)))
  }

  function Work(p: Prog, env: Env): nat
    decreases p, 0
  {
    match p
    case Done => 0
    case Send(_, rest) => 1 + Work(rest, env)
    case Pause(rest) => 1 + Work(rest, env)
    case Fail(_) => 1
    case If(test, yes, no) => 1 + if test(env) then Work(yes, env) else Work(no, env)
    case Each(inner, body, rest) =>
      4 + Work(inner, env) + WorkOver(body, env, Means(inner, env).events) + Work(rest, env)
  }

  function WorkOver(body: Prog, env: Env, events: seq<Seen>): nat
    decreases body, 1 + |events|
  {
    if events == [] then 0
    else (if events[0].Some? then 1 + Work(body, env + [events[0].value]) else 0) + WorkOver(body, env, events[1..])
  }

  function WorkOf(s: State): nat
    decreases s, 1
  {
    match s
    case Init(p, env) => 2 + Work(p, env)
    case Poll(f) => 1 + WorkOfFut(f)
    case Complete => 0
  }

  function WorkOfFut(f: Fut): nat
    decreases f, 1
  {
    Work(f.now, f.env) + WorkOfLoops(f.loops)
  }

  function WorkOfLoops(loops: Loops): nat
    decreases loops, 1
  {
    match loops
    case NoLoop => 0
    case Loop(inner, body, rest, env, outer) =>
      1 + WorkOf(inner) + WorkOver(body, env, LeftOf(inner)) + Work(rest, env) + WorkOfLoops(outer)
  }

  // Between two polls every flush has had its first poll.
  predicate Polled(s: State) { s.Poll? ==> PolledFut(s.fut) }
  predicate PolledFut(f: Fut) { f.flush != Some(true) && PolledLoops(f.loops) }
  predicate PolledLoops(loops: Loops) {
    loops.Loop? ==> Polled(loops.inner) && PolledLoops(loops.outer)
  }

  // The generator is about to run for the first time.
  lemma Begins(gen: Prog, env: Env)
    ensures var s := Poll(Fut(None, gen, env, NoLoop));
      LeftOf(s) == LeftOf(Init(gen, env)) && WorkOf(s) < WorkOf(Init(gen, env))
  {
    var f := Fut(None, gen, env, NoLoop);
    assert LeftOfLoops(f.loops) == NOTHING;
    ThenNothing(Means(gen, env));
    assert LeftOf(Poll(f)) == LeftOfFut(f).events;
    assert WorkOf(Poll(f)) == 1 + WorkOfFut(f) && WorkOfLoops(f.loops) == 0;
    assert WorkOf(Init(gen, env)) == 2 + Work(gen, env);
  }

  // Entering a loop.
  lemma EachStarts(f: Fut)
    requires f.now.Each?
    ensures var f' := f.(now := Done, loops := Loop(Init(f.now.inner, f.env), f.now.body, f.now.rest, f.env, f.loops));
      LeftOfFut(f') == LeftOfFut(f) && WorkOfFut(f') < WorkOfFut(f)
  {
    var inner := Init(f.now.inner, f.env);
    var loops := Loop(inner, f.now.body, f.now.rest, f.env, f.loops);
    var over := Over(f.now.body, f.env, LeftOf(inner));
    assert LeftOf(inner) == Means(f.now.inner, f.env).events && WorkOf(inner) == 2 + Work(f.now.inner, f.env);
    assert WorkOfLoops(loops) == 1 + WorkOf(inner) + WorkOver(f.now.body, f.env, LeftOf(inner))
                                 + Work(f.now.rest, f.env) + WorkOfLoops(f.loops);
    ThenIsAssociative(over, Means(f.now.rest, f.env), LeftOfLoops(f.loops));
    ThenNothing(LeftOfLoops(loops));
  }

  lemma InnerIsLess(f: Fut)
    requires f.loops.Loop?
    ensures WorkOf(f.loops.inner) < WorkOfFut(f)
  {
    assert WorkOfLoops(f.loops) > WorkOf(f.loops.inner);
  }

  // The inner stream has ended.
  lemma EachEnds(f: Fut)
    requires f.now.Done? && f.loops.Loop? && LeftOf(f.loops.inner) == []
    ensures var f' := f.(now := f.loops.rest, env := f.loops.env, loops := f.loops.outer);
      LeftOfFut(f') == LeftOfFut(f) && WorkOfFut(f') < WorkOfFut(f)
  {
    var l := f.loops;
    assert Over(l.body, l.env, []) == NOTHING;
    ThenNothing(LeftOfLoops(l));
    ThenNothing(Then(Means(l.rest, l.env), LeftOfLoops(l.outer)));
  }

  // The inner stream has yielded x; it goes on as inner'.
  lemma EachTurns(f: Fut, x: Item, inner': State)
    requires f.now.Done? && f.loops.Loop? && LeftOf(f.loops.inner) == [Some(x)] + LeftOf(inner')
    requires WorkOf(inner') <= WorkOf(f.loops.inner)
    ensures var f' := f.(now := f.loops.body, env := f.loops.env + [x], loops := f.loops.(inner := inner'));
      LeftOfFut(f') == LeftOfFut(f) && WorkOfFut(f') < WorkOfFut(f)
  {
    var l := f.loops;
    var events := LeftOf(l.inner);
    assert events[1..] == LeftOf(inner');
    var tail := Then(Means(l.rest, l.env), LeftOfLoops(l.outer));
    ThenIsAssociative(Means(l.body, l.env + [x]), Over(l.body, l.env, LeftOf(inner')), tail);
    ThenNothing(LeftOfLoops(l));
  }

  // The inner stream is Pending, and so is this one.
  lemma EachWaits(f: Fut, inner': State)
    requires f.now.Done? && f.loops.Loop? && LeftOf(f.loops.inner) == [None] + LeftOf(inner')
    requires WorkOf(inner') <= WorkOf(f.loops.inner)
    ensures var f' := f.(loops := f.loops.(inner := inner'));
      LeftOfFut(f) == Then(Trace([None], false), LeftOfFut(f')) && WorkOfFut(f') <= WorkOfFut(f)
  {
    var l := f.loops;
    var events := LeftOf(l.inner);
    assert events[1..] == LeftOf(inner');
    var tail := Then(Means(l.rest, l.env), LeftOfLoops(l.outer));
    ThenIsAssociative(Trace([None], false), Over(l.body, l.env, LeftOf(inner')), tail);
    ThenNothing(LeftOfLoops(l));
    ThenNothing(LeftOfLoops(l.(inner := inner')));
  }

  // One event of the code itself: an item or a pause.
  lemma CodeGoesOn(f: Fut)
    requires f.now.Send? || f.now.Pause?
    ensures var head := if f.now.Send? then Some(f.now.item(f.env)) else None;
      var f' := f.(now := f.now.rest);
      LeftOfFut(f) == Then(Trace([head], false), LeftOfFut(f')) && WorkOfFut(f') < WorkOfFut(f)
  {
    var head := if f.now.Send? then Some(f.now.item(f.env)) else None;
    ThenIsAssociative(Trace([head], false), Means(f.now.rest, f.env), LeftOfLoops(f.loops));
  }
}
