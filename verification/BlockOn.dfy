/** Blocking on a poll function: a thread polls, and parks whenever the answer is Pending.
    Parking is the token of `ParkToken`, which both parkers refine.  The source is any that
    keeps a promise: before it answers Pending it has stored the waker, or called it; and a
    stored waker is taken out and called when the source becomes ready.  What the channel and
    the borrow count do instead of promising is proved in `ChannelWait` and `SharedObject`. */
module BlockOn {
  import opened Cells
  import opened ParkToken
  import opened Runs

  datatype Phase = Polling | Parking | Sleeping | Returned(ready: bool)

  /** `registered`: the source holds the waker of a Pending poll; `calling` counts wakers that
      were taken out of it and not called yet. */
  datatype State = State(
    phase: Phase, timed: bool, ready: bool, registered: bool, calling: nat, token: bool)

  datatype Event =
    | PollSource(stores: bool)  // a source that cannot store the waker calls it at once
    | StartPark
    | WakeUp
    | Expire
    | Complete
    | CallWaker
    | Stray                     // an `unpark` that has nothing to do with this source

  function Start(timed: bool): State { State(Polling, timed, false, false, 0, false) }

  function Next(s: State, e: Event): State {
    match e
    case PollSource(stores) =>
      if !s.phase.Polling? then s
      else if s.ready then s.(phase := Returned(true))
      else if stores then s.(registered := true, phase := Parking)
      else s.(token := true, phase := Parking)
    case StartPark =>
      if !s.phase.Parking? then s
      else if s.token then s.(token := false, phase := Polling) else s.(phase := Sleeping)
    case WakeUp => if s.phase.Sleeping? && s.token then s.(token := false, phase := Polling) else s
    case Expire => if s.phase.Sleeping? && s.timed && !s.token then s.(phase := Returned(false)) else s
    case Complete =>
      if s.ready then s
      else s.(ready := true, registered := false, calling := if s.registered then s.calling + 1 else s.calling)
    case CallWaker => if s.calling > 0 then s.(calling := s.calling - 1, token := true) else s
    case Stray => s.(token := true)
  }

  ghost predicate WaitRun(timed: bool, log: seq<Event>, run: seq<State>) {
    IsRun(Start(timed), Next, log, run)
  }

  predicate Waits(s: State) { s.phase.Parking? || s.phase.Sleeping? }

  predicate Inv(s: State) {
    && (Waits(s) && s.ready ==> s.calling > 0 || s.token)
    && (Waits(s) && !s.ready ==> s.registered || s.token)
    && (s.phase.Returned? ==> if s.phase.ready then s.ready else s.timed)
  }

  lemma StepKeeps(s: State, e: Event)
    requires Inv(s)
    ensures Inv(Next(s, e)) && Next(s, e).timed == s.timed
  {
  }

  lemma {:induction false} RunKeeps(timed: bool, log: seq<Event>, run: seq<State>)
    requires WaitRun(timed, log, run)
    ensures Inv(run[|log|]) && run[|log|].timed == timed
  {
    if log != [] {
      Shorter(Start(timed), Next, log, run);
      RunKeeps(timed, log[..|log| - 1], run[..|log|]);
      StepKeeps(run[|log| - 1], log[|log| - 1]);
    }
  }

  /** A thread that waits for something that has happened already is about to be woken, and
      one that waits for something still to come has left its waker behind or was called. */
  lemma NobodySleepsForEver(timed: bool, log: seq<Event>, run: seq<State>)
    requires WaitRun(timed, log, run)
    ensures var s := run[|log|]; Waits(s) && s.ready ==> s.calling > 0 || s.token
    ensures var s := run[|log|]; Waits(s) && !s.ready ==> s.registered || s.token
  {
    RunKeeps(timed, log, run);
  }

  /** Without a timeout the call returns only with a result. */
  lemma ReturnsOnlyWhenReady(timed: bool, log: seq<Event>, run: seq<State>)
    requires WaitRun(timed, log, run)
    ensures var s := run[|log|]; s.phase.Returned? ==> if s.phase.ready then s.ready else timed
  {
    RunKeeps(timed, log, run);
  }

  class Thread {
    var token: bool
    var polled: bool
    var yielded: nat
    ghost var s: State

    ghost predicate Valid()
      reads this
    {
      s.token == token && s.ready == polled && Inv(s)
    }

    ghost predicate Rely(was: State)
      reads this
    {
      Valid() && s.phase == was.phase && s.timed == was.timed && (was.ready ==> s.ready)
      && (was.token ==> s.token) && (was.registered && !s.ready ==> s.registered)
    }

    lemma OthersKeepRely(was: State, e: Event)
      requires Inv(was) && (e.Complete? || e.CallWaker? || e.Stray?)
      ensures var s' := Next(was, e);
        && Inv(s') && s'.phase == was.phase && s'.timed == was.timed && (was.ready ==> s'.ready)
        && (was.token ==> s'.token) && (was.registered && !s'.ready ==> s'.registered)
    {
      StepKeeps(was, e);
    }

    // The source completes, wakers are called, other threads unpark this one.
    method Others()
      requires Valid()
      modifies this`token, this`polled, this`s
      ensures Rely(old(s))
    {
    }

    // This thread's own event has happened, and then others run.
    method Then(ghost e: Event)
      requires Inv(s) && Next(s, e).token == token && Next(s, e).ready == polled
      modifies this`token, this`polled, this`s
      ensures Rely(Next(old(s), e))
    {
      StepKeeps(s, e);
      s := Next(s, e);
      Others();
    }

    // A park that may be skipped, sleep, and be ended by the token or by the timeout.
    method Park(timed: bool, turns: nat) returns (r: ParkResult, returned: bool)
      requires Valid() && s.phase.Parking? && s.timed == timed
      modifies this`token, this`polled, this`s
      ensures Valid() && s.timed == timed && (returned && r.TimedOut? ==> timed)
      ensures s.phase == if !returned then Sleeping else if r.TimedOut? then Returned(false) else Polling
    {
      if token {
        token := false;
        Then(StartPark);
        return Skipped, true;
      }
      Then(StartPark);
      for turn := 0 to turns
        invariant Valid() && s.phase.Sleeping? && s.timed == timed
      {
        var expired: bool := *;
        if token {
          token := false;
          Then(WakeUp);
          return Unparked, true;
        } else if timed && expired {
          Then(Expire);
          return TimedOut, true;
        }
        Others();
      }
      return Unparked, false;
    }

    /** `block_on_poll`: Some(true) once a poll was ready, Some(false) on a timeout, None when
        the turns ran out first.  It backs off once for every park that is the fifth or later
        in a row to be skipped. */
    method BlockOnPoll(timed: bool, turns: nat) returns (r: Option<bool>, ghost parks: seq<ParkResult>)
      requires Valid() && s.phase.Polling? && s.timed == timed
      modifies this
      ensures Valid()
      ensures r.Some? ==> s.phase == Returned(r.value) && (if r.value then polled else timed)
      ensures r.None? ==> s.phase.Polling? || s.phase.Sleeping?
      ensures old(polled) && turns > 0 ==> r == Some(true)
      ensures r == Some(false) <==> parks != [] && parks[|parks| - 1] == TimedOut
      ensures yielded == old(yielded) + BackOffs(parks)
    {
      var repeat := 0;
      parks := [];
      for turn := 0 to turns
        invariant Valid() && s.phase.Polling? && s.timed == timed
        invariant old(polled) ==> polled && turn == 0
        invariant TimedOut !in parks && SkippedLast(parks, repeat)
        invariant yielded == old(yielded) + BackOffs(parks)
      {
        var result := polled;
        var stores: bool := *;
        if !result && !stores {
          token := true;
        }
        Then(PollSource(stores));
        if result {
          return Some(true), parks;
        }
        var parked, returned := Park(timed, turns);
        if !returned {
          return None, parks;
        }
        OneMore(parks, repeat, parked);
        parks := parks + [parked];
        match parked
        case Skipped =>
          repeat := repeat + 1;
          if repeat >= 5 {
            yielded := yielded + 1;
          }
        case Unparked =>
          repeat := 0;
        case TimedOut =>
          return Some(false), parks;
      }
      return None, parks;
    }
  }

  // The last `n` parks, and no more, were skipped.
  predicate SkippedLast(parks: seq<ParkResult>, n: nat) {
    && n <= |parks| && (forall i :: |parks| - n <= i < |parks| ==> parks[i] == Skipped)
    && (n < |parks| ==> parks[|parks| - n - 1] != Skipped)
  }

  // How many parks were skipped together with the four before.
  function BackOffs(parks: seq<ParkResult>): nat {
    if |parks| < 5 then 0
    else
      BackOffs(parks[..|parks| - 1])
      + if forall i :: |parks| - 5 <= i < |parks| ==> parks[i] == Skipped then 1 else 0
  }

  lemma OneMore(parks: seq<ParkResult>, n: nat, r: ParkResult)
    requires SkippedLast(parks, n)
    ensures SkippedLast(parks + [r], if r == Skipped then n + 1 else 0)
    ensures BackOffs(parks + [r]) == BackOffs(parks) + (if r == Skipped && n + 1 >= 5 then 1 else 0)
  {
    assert (parks + [r])[..|parks|] == parks;
    if r == Skipped && n + 1 < 5 && n < |parks| {
      assert (parks + [r])[|parks| - n - 1] != Skipped;
    }
  }
}
