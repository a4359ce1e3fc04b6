/** When a call of `resume_poll` can miss the last release, and a way of polling that never
    does. */
module SharedMisses {
  import opened SharedSteps
  import opened SharedCount
  import opened SharedLimits
  import opened Runs

  // The run goes on while the lender stays within its call.
  ghost predicate Within(s: State, log: seq<Event>, run: seq<State>) {
    SoundFrom(s, log, run) && forall i :: 0 <= i < |log| ==> !LenderCall(log[i])
  }

  ghost predicate CanMiss(s: State) {
    exists log: seq<Event>, run: seq<State> :: Within(s, log, run) && run[|log|].missed
  }

  lemma MissNow(s: State)
    requires s.missed
    ensures CanMiss(s)
  {
    var log: seq<Event>, run := [], [s];
    assert Within(s, log, run) && run[|log|].missed;
  }

  lemma MissLater(s: State, e: Event)
    requires Sound(s, e) && !LenderCall(e) && CanMiss(Next(s, e))
    ensures CanMiss(s)
  {
    var log: seq<Event>, run: seq<State> :| Within(Next(s, e), log, run) && run[|log|].missed;
    var log', run' := [e] + log, [s] + run;
    forall i | 0 <= i < |log'|
      ensures run'[i + 1] == Next(run'[i], log'[i]) && Sound(run'[i], log'[i]) && !LenderCall(log'[i])
    {
      if i > 0 {
        assert log'[i] == log[i - 1] && run'[i] == run[i - 1];
      }
    }
    assert Within(s, log', run') && run'[|log'|].missed;
  }

  // --- A call that finds borrows outstanding can miss the last of them

  // One more thread gives its 2 back while the lender has put its own 2 back.
  lemma GivesBack(s: State) returns (s': State)
    requires Inv(s) && s.lender.ResumeSub? && Refs(s) > 0
    ensures Inv(s') && s'.lender == s.lender && Refs(s') == Refs(s) - 1
    ensures CanMiss(s') ==> CanMiss(s)
  {
    if s.live > 0 {
      s' := Next(s, Release);
      StepKeeps(s, Release);
      if CanMiss(s') { MissLater(s, Release); }
    } else if s.retrying > 0 {
      s' := RetriesOnce(s);
    } else {
      var s1 := Next(s, SwapCount);
      StepKeeps(s, SwapCount);
      assert s1 == s.(swapping := s.swapping - 1, retrying := 1);
      s' := RetriesOnce(s1);
      if CanMiss(s') { MissLater(s, SwapCount); }
    }
  }

  lemma RetriesOnce(s: State) returns (s': State)
    requires Inv(s) && s.lender.ResumeSub? && s.retrying > 0
    ensures Inv(s') && s'.lender == s.lender && Refs(s') == Refs(s) - 1
    ensures CanMiss(s') ==> CanMiss(s)
  {
    s' := SubTwo(s.(retrying := s.retrying - 1));
    RetryKeeps(s);
    assert Next(s, Retry) == s';
    if CanMiss(s') { MissLater(s, Retry); }
  }

  lemma {:induction false} MissesInTheWindow(s: State)
    requires Inv(s) && s.lender.ResumeSub?
    ensures CanMiss(s)
    decreases Refs(s)
  {
    if Refs(s) == 0 {
      MissedIff(s);
      MissNow(Next(s, LenderMove(false)));
      MissLater(s, LenderMove(false));
    } else {
      var s' := GivesBack(s);
      MissesInTheWindow(s');
    }
  }

  lemma EntersTheWindow(s: State)
    requires Inv(s) && s.lender.ResumeLoop? && s.lender.seen == s.count && s.count > 2
    ensures CanMiss(s)
  {
    var k := s.lender.k;
    var s1 := s.(count := s.count + 2, lender := ResumeClear(k));
    MovesTo(s, s1);
    var s2 := PollStep(s1, false);
    MovesTo(s1, s2);
    var s3 := PollStep(s2, false);
    MovesTo(s2, s3);
    MissesInTheWindow(s3);
    MissLater(s2, LenderMove(false));
    MissLater(s1, LenderMove(false));
    MissLater(s, LenderMove(false));
  }

  // --- A call that finds none answers at once

  // The call has not looked yet and will find 1 or 2, or it has, or it has answered.
  predicate WillAnswer(s: State) {
    !s.missed && match s.lender
      case ResumeLoad(_) => s.count <= 2
      case ResumeLoop(_, seen) => seen in {1, 2}
      case Pending(_) => true
      case _ => false
  }

  lemma StillAnswers(s: State, e: Event)
    requires Inv(s) && WillAnswer(s) && !LenderCall(e)
    ensures WillAnswer(Next(s, e))
  {
  }

  lemma {:induction false} AnswersWithoutAMiss(s: State, log: seq<Event>, run: seq<State>)
    requires Inv(s) && WillAnswer(s) && Within(s, log, run)
    ensures WillAnswer(run[|log|])
  {
    if log != [] {
      var front := log[..|log| - 1];
      Shorter(s, Next, log, run);
      assert forall i :: 0 <= i < |front| ==> front[i] == log[i];
      AnswersWithoutAMiss(s, front, run[..|log|]);
      RunKeepsFrom(s, front, run[..|log|]);
      StillAnswers(run[|log| - 1], log[|log| - 1]);
    }
  }

  /** A call of `resume_poll` can miss the last release if and only if it finds borrows
      outstanding when it looks first. */
  lemma ResumeMissesIff(s: State)
    requires Inv(s) && s.lender.ResumeLoad? && !s.missed
    ensures CanMiss(s) <==> s.count > 2
  {
    if s.count > 2 {
      var s1 := s.(lender := ResumeLoop(s.lender.k, s.count));
      MovesTo(s, s1);
      EntersTheWindow(s1);
      MissLater(s, LenderMove(false));
    } else {
      forall log: seq<Event>, run: seq<State> | Within(s, log, run) ensures !run[|log|].missed {
        AnswersWithoutAMiss(s, log, run);
      }
    }
  }

  // --- Polling again only when called

  predicate Patient(s: State, e: Event) { e.ResumePoll? && s.lender.Pending? ==> s.wakes > s.mark }

  ghost predicate PatientRun(log: seq<Event>, run: seq<State>) {
    SoundRun(log, run) && forall i :: 0 <= i < |log| ==> Patient(run[i], log[i])
  }

  predicate InTheWindow(l: LenderPc) { l.ResumeClear? || l.ResumeStore? || l.ResumeSub? }

  // A waker that was called since the poll began was called by the last borrow.
  predicate Prompt(s: State) {
    && !s.missed && !InTheWindow(s.lender)
    && (s.lender.StartLoad? || s.lender.StartStore? || s.lender.StartSub? ==> s.wakes == s.mark)
    && (s.lender.ResumeLoad? ==> s.count <= 2)
    && (s.lender.ResumeLoop? ==> s.lender.seen in {1, 2})
    && (Withdrawn(s.lender) && s.wakes > s.mark ==> s.count <= 2)
  }

  lemma BorrowKeepsPrompt(s: State, e: Event)
    requires Inv(s) && Prompt(s)
    ensures Prompt(BorrowStep(s, e))
  {
  }

  lemma PollKeepsPrompt(s: State, spurious: bool)
    requires Inv(s) && Prompt(s) && Polling(s.lender)
    ensures Prompt(PollStep(s, spurious))
  {
  }

  lemma CancelKeepsPrompt(s: State, spurious: bool)
    requires Inv(s) && Prompt(s) && (s.lender.CancelLoad? || s.lender.CancelLoop?)
    requires Sound(s, LenderMove(spurious))
    ensures Prompt(LeaveStep(s, spurious))
  {
  }

  lemma LeaveKeepsPrompt(s: State, spurious: bool)
    requires Inv(s) && Prompt(s) && !Polling(s.lender) && Sound(s, LenderMove(spurious))
    ensures Prompt(LeaveStep(s, spurious))
  {
    if s.lender.CancelLoad? || s.lender.CancelLoop? { CancelKeepsPrompt(s, spurious); }
  }

  lemma CallKeepsPrompt(s: State, e: Event)
    requires Inv(s) && Prompt(s) && Sound(s, e) && Patient(s, e) && LenderCall(e)
    ensures Prompt(Next(s, e))
  {
  }

  lemma StepKeepsPrompt(s: State, e: Event)
    requires Inv(s) && Prompt(s) && Sound(s, e) && Patient(s, e)
    ensures Prompt(Next(s, e))
  {
    if LenderCall(e) {
      CallKeepsPrompt(s, e);
    } else if !e.LenderMove? {
      BorrowKeepsPrompt(s, e);
    } else if !s.lender.Gone? {
      assert Touch(s) == s;
      if Polling(s.lender) { PollKeepsPrompt(s, e.spurious); } else { LeaveKeepsPrompt(s, e.spurious); }
    }
  }

  /** A lender that polls again only after its waker was called since the last poll began
      never misses a release, and never puts its 2 back to replace the waker. */
  lemma {:induction false} PatienceNeverMisses(log: seq<Event>, run: seq<State>)
    requires PatientRun(log, run)
    ensures Prompt(run[|log|]) && !run[|log|].missed && !InTheWindow(run[|log|].lender)
  {
    if log != [] {
      var front := log[..|log| - 1];
      Shorter(INIT, Next, log, run);
      assert forall i :: 0 <= i < |front| ==> front[i] == log[i] && run[..|log|][i] == run[i];
      PatienceNeverMisses(front, run[..|log|]);
      RunKeeps(front, run[..|log|]);
      StepKeepsPrompt(run[|log| - 1], log[|log| - 1]);
    }
  }
}
