# Verified model of the suspend concurrency protocols

The `suspend` crates are built on a handful of small hand-written protocols: a
single-producer single-consumer channel on one state byte, a borrow counter that also encodes
what its owner is doing, a thread pool around one mutex and one condition variable, two
parkers, and async streams that pass values through a thread-local pointer. This project
models them in Dafny and proves what they promise, over every interleaving and every run.

`dafny verify dfyconfig.toml` checks everything.

## How the models are built

Each concurrent protocol is described twice.

* A **step system on values**: a `State` with the shared memory, a program counter for each
  thread (or the number of threads at each point, where they are interchangeable) and history;
  one label for each atomic operation or locked region. A run (`Runs.IsRun`) is the sequence of
  states that a log of events leads through; labels that do not apply change nothing, so
  every log has a run (`Runs.RunOf`). One inductive invariant per protocol gives the theorems,
  which speak of `run[|log|]`, the state after any run.
* A **class in the form of the source**: the same fields, changed in place by the same loops
  and branches. The ghost field `s` is the step system's state; `Valid()` says that memory is
  the memory of `s` and that the invariant holds. After each of its own operations a method
  calls `Others`, `Borrowers` or `Then`, whose contract allows any number of steps of all other
  threads: the caller knows nothing but that contract, and a lemma shows that every step of
  another thread stays within it (`OthersKeepRely`, `BorrowersKeepRely`, `OthersKeepPlace`,
  `OthersKeepOwing`, `ElsewhereKeeps`). The bodies of these methods are empty because running
  nobody is one of the allowed behaviours. Loops that wait for other threads take a number of
  `turns` and report when the turns ran out. A method whose own effect other threads may cover
  up returns the states around its own operation, `was` and `now`.

The channel's class is the exception: it describes calls that do not overlap, which is what
closing, handles and tasks are proved with; the step system covers overlapping calls, and
`ChannelSolo` proves that the two descriptions of `write`, `flush` and `read` agree.

| file | contents |
|---|---|
| `Cells.dfy`, `Runs.dfy` | the checked `Maybe` cell (maybe-cell/src/lib.rs:97-142), and runs of a step system |
| `ChannelSteps.dfy`, `ChannelOpen.dfy`, `ChannelAnswers.dfy`, `ChannelWait.dfy` | every arm of `write`, `flush` and `read` as steps (suspend-channel/src/channel.rs:76-360), the theorems of the open phase, what its calls answer, and two threads that block on the two ends |
| `ChannelCalls.dfy`, `ChannelSolo.dfy` | the calls as a whole, the `Channel` class, and the step system run alone |
| `Lifecycle.dfy`, `LifecycleAnswers.dfy`, `OnceObject.dfy`, `TaskObject.dfy` | `send_once`, `channel` and `task_fn` pairs from creation to deallocation, call by call, and what the handles are told |
| `SharedSteps.dfy`, `SharedCount.dfy`, `SharedLimits.dfy`, `SharedMisses.dfy`, `SharedObject.dfy` | the borrow count, its theorems, the steps that do harm, exactly, the polls that can miss a release, and the `SharedInner` class with `PinShared::with` and its parking thread |
| `PoolSteps.dfy`, `PoolRuns.dfy`, `PoolDrain.dfy`, `PoolLimits.dfy`, `PoolObject.dfy` | the thread pool monitor, its invariants, how a drain ends, when it loses tasks, and the `ThreadPoolInner` class |
| `ParkToken.dfy`, `PthreadPark.dfy`, `FutexPark.dfy`, `ParkObjects.dfy`, `BlockOn.dfy` | one token, two parkers that refine it, their classes, and the blocking poll loop over any source that keeps its promise |
| `StreamMeaning.dfy`, `StreamState.dfy`, `StreamObject.dfy` | what a generator means, what is left of it between polls, and the streams over a thread-local pointer |

## Where the code falls short of its promises

The model keeps the code as it is. Each of these is stated exactly by the members named.

* `cancel_poll` finding the last borrow in the middle of its notification (count 1): its
  comment makes that borrow responsible for the allocation, but `drop_lender` frees it at once.
  The arm does no harm exactly when it resets and the waker was called already
  (`CancelAtOneHarmsIff`).
* `borrow` does not look at the count. A lender whose wait has timed out still has its 2
  withdrawn; if it lends when the last borrow is settling the count or has settled it (count 1
  or 2), nobody is left to call the next waker, and nothing in the cell to clear
  (`LendHarmsIff`). At count 2 the next poll, and dropping the lender, clear an empty cell
  (`LendingAtTwoSpoilsTheCell`); at count 1 a poll can complete with a notifier still under way
  (`LendingAtOneCompletesTooEarly`). `LateHappens` holds runs to both.
* `OnlyThoseThree` shows that what is left of that arm, a wrong `pending` argument of
  `drop_lender`, and such a late `borrow` are the only steps that can lead to memory used after
  it was freed, a leak, a cell used in the wrong occupancy, a borrow counted that nobody holds,
  or a completion reported with somebody still there.
* `Lender` forgets that its 2 is withdrawn when `resume_poll` reports completion, and still
  believes it when a pending `Collect` was dropped. Dropping the lender then leaks the
  allocation, or clears an empty cell; `FlagIsWrongIff` and `DropHarmsIff` say that, but for a
  late `borrow`, there is no other such case, and `CollectedHappens` and `AbandonedHappens` are runs to both.
* `resume_poll` with borrows outstanding replaces its waker again and again instead of
  answering Pending (`ResumeSpins`), and misses the last release exactly when it falls into
  the window in which 2 was put back (`MissedIff`); from then on no poll completes unless the
  lender lends again (`StuckForEver`, `LendingRepairsTheMiss`); `MissedHappens` is a run that gets
  there. A call can miss exactly if it finds borrows outstanding (`ResumeMissesIff`), so a
  caller that polls again only when its waker was called never does (`PatienceNeverMisses`).
* A pool with `min_count` 0 and an idle timeout can lose tasks in `drain`
  (`LosesNothingIff`); with panicking tasks every pool with a cap or an idle timeout can, and no
  other (`LosesNothingEvenIfTasksPanicIff`).
* `try_send` after the receiver was dropped with a value unread frees the allocation with
  that value still in it (`CleanIffAvoids`, `SpoiltRun`).
* `JoinTask::try_join` and `ReceiveOnce::try_recv` are documented as non-blocking attempts, but
  without a waker `read` answers Ready with nothing, and both handles then close: on an
  unfinished task `try_join` gives up with `Incomplete`, and never answers Pending
  (`JoinTask.TryJoin`). `Receiver::try_recv` gets the same answer but keeps its handle.
* The futex `park` returns an optional flag where the trait asks for `ParkResult`; the model
  reads `Some(false)` as Skipped, `Some(true)` as Unparked and `None` as TimedOut.

## Model

| member | source | states |
|---|---|---|
| ChannelOpen.NoLostWakeUp | suspend-channel/src/channel.rs:109-155 | After any open run, a side whose last call ended in Pending was called since that call began, or its waker lies unlocked in the cell, or the other side holds it and calls it next |
| ChannelOpen.NoStandstill | suspend-channel/src/channel.rs:183-249 | Reader and writer never both wait with neither of them called |
| ChannelOpen.ExactlyOnceInOrder | suspend-channel/src/channel.rs:251-360 | Values received, then the one in the reader's hands, then the one in the cell, are the values accepted, in order; a finished flush leaves none in the cell |
| ChannelOpen.CellsAreOwned | suspend-channel/src/channel.rs:111-148 | No load, store or clear meets the wrong occupancy or overlaps with the other side's, the "Invalid channel state" panic is unreachable, and nobody is told that the peer is gone |
| ChannelOpen.StepKeeps | suspend-channel/src/channel.rs:76-360 | Every atomic operation of every arm keeps the invariant behind these four |
| ChannelAnswers.ReadyBringsAValue | suspend-channel/src/channel.rs:251-360 | In every open run a `read` that was given a waker and answers Ready brings a value, whatever exchanges it lost on the way |
| ChannelAnswers.ReadTakesWhatItSees | suspend-channel/src/channel.rs:256-293 | While a value is loaded no step of `read` answers without it or gives up registering by calling its own waker |
| ChannelAnswers.WriteAnswersWhatItDid | suspend-channel/src/channel.rs:76-156 | After an error the value given to `write` has come back and nothing was accepted; after Ok exactly that value was |
| ChannelAnswers.WriterWaitsWithReason | suspend-channel/src/channel.rs:158-249 | `write` refuses only a loaded channel; `flush` waits only with the value and its waker in their cells or for a reader in the middle of its call, and is done only when the value has left |
| ChannelWait.SleepersAreOwed | suspend-core/src/thread.rs:40-68 | Two threads block on the two ends with all their calls overlapping: one that sleeps without a token is about to be unparked by the other, or its waker lies in the cell for the other to find |
| ChannelWait.NeverBothStopped | suspend-core/src/thread.rs:25-68 | Reader and writer never both sleep without a token |
| ChannelWait.SleepersHaveAReason | suspend-channel/src/channel.rs:407-424 | A reader stays asleep only with everything received, a writer only with its value still in the cell |
| ChannelSolo.SoloWrite | suspend-channel/src/channel.rs:76-156 | Run alone from rest, the steps of `write` end, in the memory, result and wake-up of the whole-call meaning |
| ChannelSolo.SoloFlush | suspend-channel/src/channel.rs:158-249 | The same for `flush` |
| ChannelSolo.SoloRead | suspend-channel/src/channel.rs:251-360 | The same for `read` |
| ChannelObject.Channel.Write | suspend-channel/src/channel.rs:76-156 | The loop of atomic operations has the whole-call meaning whatever weak exchanges fail, wakes exactly the waker that was waiting, and leaves locks and cells at rest |
| ChannelObject.Channel.Flush | suspend-channel/src/channel.rs:158-249 | Likewise, and exactly when a value that is taken back leaves the cells out of step with the word |
| ChannelObject.Channel.Read | suspend-channel/src/channel.rs:251-360 | Likewise, with and without a waker; a value in the cell is always the answer, and a cancelling read that finds none closes the side and leaves the cells alone |
| ChannelObject.Channel.DropOneSide | suspend-channel/src/channel.rs:362-405 | The first side to leave calls exactly the waker that waits on the other side, drops its own, and keeps the value; the last side empties both cells and is told to free |
| Lifecycle.FreedExactlyOnce | suspend-channel/src/channel.rs:465-687 | In every run that avoids the corner of the next row the allocation is freed once, by whoever leaves last, with both cells empty, is not used afterwards, and every value is received, returned, dropped or inside, exactly once |
| Lifecycle.CleanIffAvoids | suspend-channel/src/channel.rs:757-781 | Both cells are empty at the deallocation if and only if no `try_send` met a closed channel with a value left in it |
| Lifecycle.SpoiltRun | suspend-channel/src/channel.rs:757-794 | A run of three calls in which that happens and the first value is lost |
| Lifecycle.JoinerLearnsTheOutcome | suspend-channel/src/task.rs:78-105 | After any run a joiner has Ok only with the result of a completed body, and Incomplete only if the body panicked or was dropped; the body waits exactly as long as its handle exists |
| Lifecycle.BodyIsSpentOnce | suspend-channel/src/task.rs:46-92 | Once run or dropped, a body is never touched again |
| LifecycleAnswers.PendingHandlesAreCalled | suspend-channel/src/channel.rs:362-405 | In every run that avoids the corner: a handle whose last poll was Pending was called since that poll, or its waker is in the cell and the other handle is there; closing calls it as much as sending and receiving do |
| LifecycleAnswers.SentIsWhatCallsBring | suspend-channel/src/channel.rs:554-578 | The values that the balance counts as sent are those given to the calls of the run, each once |
| LifecycleAnswers.SendPutsTheValue | suspend-channel/src/channel.rs:757-781 | With the receiver there and the cell empty, a call that writes leaves its value in the cell and calls a receiver that waits; otherwise the value comes back, or is dropped if it is a task's result |
| LifecycleAnswers.FlushWaitsForTheReceiver | suspend-channel/src/channel.rs:504-525 | A later poll of a `Flush` waits, registered, if and only if the value is in the cell and the receiver is there; what the receiver left behind comes back |
| LifecycleAnswers.ReceiveTakesTheValue | suspend-channel/src/channel.rs:657-674 | With a value in the cell every receiving call takes exactly that value and calls a sender that waits |
| LifecycleAnswers.ReceiveWaitsForTheSender | suspend-channel/src/channel.rs:657-674 | Without one it learns of the end exactly if the sender is gone, waits with its waker registered if it has one, and a one-shot poll without a waker gives up |
| LifecycleAnswers.OutcomeIsInTheLog | suspend-channel/src/task.rs:78-105 | A body that no longer waits was ended by one call of the run: completed with the value returned, panicked, or dropped |
| LifecycleAnswers.JoinerLearnsTheReturn | suspend-channel/src/task.rs:172-191 | A joiner's Ok is the value that the closure returned in this run, and Incomplete means that it panicked or was dropped in it |
| OnceObject.Flush.constructor | suspend-channel/src/channel.rs:551-561 | `send` hands one value over |
| OnceObject.Flush.Poll | suspend-channel/src/channel.rs:481-526 | Done with Ok means the value was received; Disconnected returns that very value; Pending means it lies in the cell with the waker beside it and a receiver to take it |
| OnceObject.Flush.Drop | suspend-channel/src/channel.rs:465-479 | The event of the lifecycle in which the sending side closes and the last one frees |
| OnceObject.ReceiveOnce.PollResult | suspend-channel/src/channel.rs:657-674 | A value in the cell is received, and was sent; Incomplete means that the sender is gone and the box freed, or that a poll without a waker gave up; Pending keeps the handle, with its waker in the cell |
| OnceObject.ReceiveOnce.Drop | suspend-channel/src/channel.rs:677-687 | The receiving side closes, and frees if it is last |
| OnceObject.GoneMeansReceived | suspend-channel/src/channel.rs:504-525 | A written value that is no longer in the cell, with the sender still there, is the one received |
| TaskObject.TaskInner.Run | suspend-channel/src/task.rs:78-105 | The body runs once and completes with the value it returned, which goes into the cell, calling a joiner that waits, or the box is freed; a panic closes the side through the guard |
| TaskObject.TaskInner.Cancel | suspend-channel/src/task.rs:46-53 | Dropping the handle leaves the body cancelled, calls a joiner that waits, and frees if nobody joins |
| TaskObject.JoinTask.Poll | suspend-channel/src/task.rs:172-191 | Ok with the body's result if and only if it completed, Incomplete if it panicked or was dropped, Pending, with its waker registered, while it waits, Terminated after an answer |
| TaskObject.JoinTask.TryJoin | suspend-channel/src/task.rs:153-169 | Never Pending: on a body that still waits it gives up and closes the handle |
| TaskObject.JoinTask.Join | suspend-channel/src/task.rs:114-128 | Returns only after the body was run or dropped, at once if it was already, with its outcome, and the box is freed once by then |
| TaskObject.JoinTask.Drop | suspend-channel/src/task.rs:193-204 | The joining side closes, and frees if it is last |
| SharedCount.CompletionIsFinal | suspend-core/src/shared.rs:253-329 | In every run without one of the three harmful steps: when a poll or `try_collect` reports completion no borrow is held, no dropping thread will touch the allocation, and every borrow ever lent was given back, for any number of borrowers |
| SharedCount.FreedOnceByTheLast | suspend-core/src/shared.rs:189-236 | In every run without one of the three harmful steps: the allocation is freed exactly once, when the lender is gone and no borrow is held, and nobody accesses it afterwards |
| SharedCount.WakersAreUsedOnce | suspend-core/src/shared.rs:238-251 | In every run without one of the three harmful steps: every waker stored is called by a last borrow, cleared by the lender, or in the cell, and no cell operation meets the wrong occupancy |
| SharedCount.WaitingLenderIsNotified | suspend-core/src/shared.rs:217-231 | In every run without one of the three harmful steps: a pending lender has its latest waker in the cell while borrows are held, then a notifier under way, then count 2, unless it missed the last release |
| SharedCount.UncalledLenderIsAwaited | suspend-core/src/shared.rs:290-329 | In every run without one of the three harmful steps: a lender whose last poll was Pending and whose waker was not called since that poll began has it in the cell, with a thread left that will call it, even if it missed the last release |
| SharedCount.StepKeeps | suspend-core/src/shared.rs:189-383 | Every other operation of lender and borrowers, lending while a poll is pending included, keeps the encoding of phase and borrows in one counter |
| SharedCount.AnswersAreExact | suspend-core/src/shared.rs:253-382 | In every such run whether a call of the lender goes to its completing answer depends on who is left: `start_poll`, `try_collect` and the drop of a resting lender complete if and only if nobody holds or drops a borrow, and those after a poll if and only if, besides, no release was missed |
| SharedLimits.OnlyThoseThree | suspend-core/src/shared.rs:189-204 | From a sound state a step can lead to use after free, a leak, a misused cell, a phantom borrow or an early completion, with nothing unsound after it, if and only if it is a `drop_lender` with the wrong flag, the harmful part of the count 1 arm of `cancel_poll`, or a `borrow` that comes too late for a pending poll |
| SharedLimits.LendHarmsIff | suspend-core/src/shared.rs:64-75 | In every run of a lender, between calls, lending can lead to such harm if and only if a poll is pending, no release was missed, and the count is 1 or 2 |
| SharedLimits.LendingAtTwoSpoilsTheCell | suspend-core/src/shared.rs:305-319 | Lending at count 2: the next poll and the drop of the lender both clear an empty cell |
| SharedLimits.LendingAtOneCompletesTooEarly | suspend-core/src/shared.rs:217-231 | Lending at count 1 with the waker called: a poll completes while the new borrow's release is still to call a waker |
| SharedLimits.LateHappens | suspend-core/src/shared.rs:427-440 | Runs of a lender to a pending poll at count 2 and at count 1 |
| SharedLimits.CancelAtOneHarmsIff | suspend-core/src/shared.rs:343-361 | The arm leads to such harm if and only if it does not reset, or the waker was not called yet, or the last borrow was missed |
| SharedLimits.ResetAtOneRecovers | suspend-core/src/shared.rs:343-355 | Otherwise the notifier fails to settle the count and gives its 2 back again, as the comment says |
| SharedLimits.CancelAtOneFreesTooEarly | suspend-core/src/shared.rs:189-197 | After that arm the allocation is freed and the notifier's next operation touches it |
| SharedLimits.CancelAtOneSpoilsTheCell | suspend-core/src/shared.rs:343-361 | Cancelling there and polling again stores over a waker that is about to be taken |
| SharedLimits.CancelAtOneHappens | suspend-core/src/shared.rs:343-361 | A run of sound steps that reaches the arm |
| SharedLimits.FlagIsWrongIff | suspend-core/src/shared.rs:103-127 | In every run of a lender, between calls, its flag differs from the withdrawn 2 if and only if a resumed poll completed or a pending collection was abandoned |
| SharedLimits.DropHarmsIff | suspend-core/src/shared.rs:143-149 | In every run of a lender whose last call may have lent too late, dropping it can lead to harm if and only if it has, or a resumed poll completed, or a pending collection was abandoned |
| SharedLimits.CollectedLenderLeaks | suspend-core/src/shared.rs:143-149 | In the first case nobody is left and nothing is freed |
| SharedLimits.CollectedHappens | suspend-core/src/shared.rs:290-297 | A run of a lender that gets there |
| SharedLimits.AbandonedHappens | suspend-core/src/shared.rs:443-450 | A run of a lender that drops a pending collection and keeps the flag |
| SharedLimits.MissedIff | suspend-core/src/shared.rs:305-321 | Replacing the waker misses the last release if and only if no borrow is left when the 2 is withdrawn again |
| SharedLimits.MissedIsStuck | suspend-core/src/shared.rs:299-321 | Missing it leaves count 1 with nobody to notify |
| SharedLimits.StuckForEver | suspend-core/src/shared.rs:290-304 | From there no run in which the lender is neither cancelled nor dropped and lends nothing ever completes a poll or a `try_collect` |
| SharedLimits.LendingRepairsTheMiss | suspend-core/src/shared.rs:199-204 | Lending once more repairs it: the borrow is counted and its release calls the waker left in the cell |
| SharedLimits.MissedHappens | suspend-core/src/shared.rs:305-321 | A run that gets there |
| SharedLimits.ResumeSpins | suspend-core/src/shared.rs:290-329 | Left alone with a borrow outstanding, `resume_poll` stores one more waker per round for ever |
| SharedMisses.ResumeMissesIff | suspend-core/src/shared.rs:290-329 | A call of `resume_poll` by a lender that missed nothing can miss the last release if and only if its first load finds borrows outstanding |
| SharedMisses.PatienceNeverMisses | suspend-core/src/shared.rs:290-329 | In every run in which a lender polls again only after its waker was called, no release is missed and the waker is never replaced |
| SharedObject.SharedInner.StartPoll | suspend-core/src/shared.rs:267-288 | With borrowers running between any two operations: Ready means no borrow and no notifier and count 3, and is the answer if that was so at the call; Pending means this waker is registered |
| SharedObject.SharedInner.ResumePoll | suspend-core/src/shared.rs:290-329 | Ready means no borrow, no notifier and count 2, and is the answer if that was so at the call; Pending is answered only when no borrow is held, with the thread's token set |
| SharedObject.SharedInner.TryCollect | suspend-core/src/shared.rs:253-265 | True means no borrow and count 3, and is the answer whenever nobody was left at the call and no release was missed; the swap finds the 2 it asserts |
| SharedObject.SharedInner.CancelPoll | suspend-core/src/shared.rs:332-382 | Collected if nobody was left at the call and no release was missed; otherwise collected, withdrawn, or caught at count 1, with the lender's place for each |
| SharedObject.SharedInner.DropLender | suspend-core/src/shared.rs:189-197 | The lender is gone unless it was caught at count 1; it frees when nobody was left at the call and no release was missed, and only when nobody holds a borrow and nobody freed before |
| SharedObject.SharedInner.DecCountRef | suspend-core/src/shared.rs:206-236 | The thread's own step takes its 2 out of the state it found; the count found says whether it frees, is done, or notifies, and a notifier that a cancelled poll interrupts tries again |
| SharedObject.SharedInner.Notify | suspend-core/src/shared.rs:217-231 | The loop from the notification on: it ends with the borrow given back or with the duty to free, whatever interrupts it |
| SharedObject.SharedInner.PutBack | suspend-core/src/shared.rs:343-356 | The harmless part of the count 1 arm leaves the lender at rest with the invariant |
| SharedObject.SharedInner.CollectOnDrop | suspend-core/src/scoped.rs:48-67 | One poll after another with a park after each that is Pending: done at once if nothing is lent, done only when every borrow ever lent was given back, asleep only while somebody is still to call this waker |
| SharedObject.SharedInner.With | suspend-core/src/scoped.rs:34-40 | A borrow is lent, and the call is done only when every borrow ever lent, in any thread, was given back and no notification is under way |
| PoolRuns.NoTaskWaitsOnSleepers | suspend-exec/src/threadpool.rs:193-246 | Outside Shutdown, while somebody sleeps, queued tasks are at most the woken and coming workers plus notifications owed; once those are used up a queued task finds nobody asleep |
| PoolRuns.PoolGrowsWithItsQueue | suspend-exec/src/threadpool.rs:259-285 | Without timeout and panics, at every unlocked point the cap is reached or five times the idle workers cover the queue |
| PoolRuns.PoolGrowsOnlyWhenItMust | suspend-exec/src/threadpool.rs:259-285 | Any locked region that adds a thread adds one, below the cap, with nobody idle or the queue longer than five times the idle workers |
| PoolRuns.WorkersLeaveWithReason | suspend-exec/src/threadpool.rs:207-246 | Workers leave one at a time, only after a panic, in shutdown, in a drain with an empty queue, or after a timeout above the minimum |
| PoolRuns.MinimumIsKept | suspend-exec/src/threadpool.rs:233-246 | In every run, until a task panics or the pool is drained, there are at least `min_count` workers |
| PoolRuns.CountersAreExact | suspend-exec/src/threadpool.rs:92-107 | In every run, panics and timeouts included, the counts are the live and the idle workers, never underflow, and stay within max(min, max, 1) |
| PoolRuns.TasksAreTakenInOrder | suspend-exec/src/threadpool.rs:207-228 | Tasks taken, then the queue, are the submission order; each task taken is running or has run once |
| PoolRuns.ShutdownTakesNothing | suspend-exec/src/threadpool.rs:207-210 | Once shutting down no further task is ever taken |
| PoolRuns.StepKeeps | suspend-exec/src/threadpool.rs:193-301 | Every locked region, notification and spawn keeps the invariant behind these |
| PoolDrain.DrainGetsOn | suspend-exec/src/threadpool.rs:207-246 | After `start_drain` every effective step but a submission lowers a measure |
| PoolDrain.DrainEnds | suspend-exec/src/threadpool.rs:287-301 | So a drain is over after a number of steps known when it starts |
| PoolDrain.DrainNeverStandsStill | suspend-exec/src/threadpool.rs:287-301 | While workers are left something happens without luck: an entry, a finished task, a notification or spawn that is owed; not a spurious wake, not a timeout |
| PoolDrain.DrainReachesTheEnd | suspend-exec/src/threadpool.rs:133-141 | From any reachable state after `start_drain`, a run that goes on until nothing moves by itself has a bounded length, leaves no worker, and without panics and under the condition below no task that has not run |
| PoolLimits.LosesNothingIff | suspend-exec/src/threadpool.rs:133-141 | Every panic-free drain that ends has run every submitted task once, if and only if `min_count` is at least 1 or there is no idle timeout |
| PoolLimits.LosesNothingEvenIfTasksPanicIff | suspend-exec/src/threadpool.rs:217-228 | With tasks that may panic the same holds if and only if there is neither a cap nor an idle timeout |
| PoolLimits.LeftBehind | suspend-exec/src/threadpool.rs:231-238 | For every configuration with timeout and no minimum, a panic-free run that ends with a task in the queue |
| PoolLimits.PanicsUnderACap | suspend-exec/src/threadpool.rs:259-285 | For every cap, a run that fills every worker there can be, panics them all and leaves a task |
| PoolLimits.PanicsAfterATimeout | suspend-exec/src/threadpool.rs:231-238 | For every minimum with timeout and no cap, a run in which the spare worker times out with a task left to it and the others panic |
| PoolObject.ThreadPoolInner.constructor | suspend-exec/src/threadpool.rs:74-109 | The pre-start loop ends with `min_count` workers, counted and starting |
| PoolObject.ThreadPoolInner.MaybeSpawn | suspend-exec/src/threadpool.rs:259-285 | Grows exactly by the policy, and keeps the pool's invariant across its unlocked notification and spawn |
| PoolObject.ThreadPoolInner.RunBoxed | suspend-exec/src/threadpool.rs:193-199 | The task takes its place in the submission order, and after the spawn or the notification the hand-off invariant holds again |
| PoolObject.ThreadPoolInner.RunTask | suspend-exec/src/threadpool.rs:212-228 | Takes the first task, runs it outside the lock, and comes back with it finished |
| PoolObject.ThreadPoolInner.Work | suspend-exec/src/threadpool.rs:207-242 | The loop ends only in shutdown, in a drain with an empty queue, after a timeout above the minimum, or after a panic; every task it took has finished |
| PoolObject.ThreadPoolInner.RunThread | suspend-exec/src/threadpool.rs:201-257 | A worker leaves from a locked region that its reason allows it to leave, and what follows is that state with both counters taken back, and then other threads |
| PoolObject.ThreadPoolInner.StartDrain | suspend-exec/src/threadpool.rs:287-301 | Leaves the pool in the new phase with the invariant that nobody sleeps through it |
| PoolObject.ThreadPoolInner.DrainAll | suspend-exec/src/threadpool.rs:133-141 | `drain` returns with an empty queue and every submitted task run, under the condition above |
| PthreadPark.NoLostWakeUp | suspend-core/src/raw_park/pthread.rs:206-224 | A thread asleep with UNPARK set has an unparker between its `fetch_or` and its signal, with any number of unparkers and spurious wakes |
| PthreadPark.UnparkersWakeIt | suspend-core/src/raw_park/pthread.rs:206-219 | And that unparker wakes it within three of its own steps |
| PthreadPark.TokensAreConserved | suspend-core/src/raw_park/pthread.rs:147-225 | Successful unparks equal skipped and woken parks plus the UNPARK bit |
| PthreadPark.SwapsFindWhatWasLoaded | suspend-core/src/raw_park/pthread.rs:147-204 | No `found == state` assertion fails, and the mutex is initialized once, before its first use |
| PthreadPark.RefinesToken | suspend-core/src/raw_park/pthread.rs:147-225 | What each step answers is what the token allows: true exactly for the unpark that puts it there, Skipped or Unparked exactly when it is taken, TimedOut only without it, and a decided result is the one returned |
| PthreadPark.ResultsTellTheCourse | suspend-core/src/raw_park/pthread.rs:147-204 | A finished park answers Skipped exactly if it never waited, and TimedOut only if its time ran out |
| PthreadPark.TokenEndsThePark | suspend-core/src/raw_park/pthread.rs:147-204 | A token found at the start, or by a thread that woke up, ends the call in its next operations, with the token taken |
| PthreadObject.ParkImpl.Park | suspend-core/src/raw_park/pthread.rs:147-204 | With unparkers running between any two operations, Skipped and Unparked use one token up, TimedOut none and only with a timeout; a token present at the call is always taken at once |
| PthreadObject.ParkImpl.Unpark | suspend-core/src/raw_park/pthread.rs:206-224 | Its own step sets UNPARK in the state it found and answers whether it was missing; if the other thread was parked then, a signal was sent before it returned |
| PthreadObject.TimeoutToTimespec | suspend-core/src/raw_park/pthread.rs:311-329 | The normalized exact sum of clock and timeout, or no deadline exactly when it does not fit |
| FutexPark.NoLostWakeUp | suspend-core/src/raw_park/futex.rs:112-123 | A thread asleep with UNPARK set has a futex wake coming that ends its sleep |
| FutexPark.TokensAreConserved | suspend-core/src/raw_park/futex.rs:71-123 | Successful unparks equal skipped and woken parks plus the UNPARK bit |
| FutexPark.SwapsFindWhatWasLoaded | suspend-core/src/raw_park/futex.rs:75-96 | The assertions hold and the "Invalid lock state update" panic is unreachable |
| FutexPark.RefinesToken | suspend-core/src/raw_park/futex.rs:71-123 | The answers of this parker, too, are those of the token |
| FutexPark.ResultsTellTheCourse | suspend-core/src/raw_park/futex.rs:71-110 | A finished park answers Skipped exactly if it never waited, and TimedOut only if its time ran out |
| FutexPark.TokenEndsThePark | suspend-core/src/raw_park/futex.rs:71-110 | A token found at the start, or by a thread that woke up, ends the call in its next operations, with the token taken |
| FutexObject.ParkImpl.Park | suspend-core/src/raw_park/futex.rs:71-110 | As for the other parker |
| FutexObject.ParkImpl.Unpark | suspend-core/src/raw_park/futex.rs:112-123 | The same, with a futex wake |
| BlockOn.NobodySleepsForEver | suspend-core/src/thread.rs:40-68 | Over a source that stores the waker or calls it before it answers Pending: a thread that waits has the token, or a waker call coming, or its waker is stored |
| BlockOn.ReturnsOnlyWhenReady | suspend-core/src/thread.rs:25-36 | Without a timeout the loop returns only with a result |
| BlockOn.Thread.BlockOnPoll | suspend-core/src/thread.rs:40-68 | Ready only when the poll was, and at once if it is at the call; Pending exactly if the last park timed out; it backs off exactly for every park that is the fifth or later in a row to be skipped |
| StreamObject.AsyncStream.PollNext | suspend-channel/src/async_stream.rs:199-228 | One poll sees exactly the next event of the generator's meaning, at any nesting depth, and leaves pointer and slots of the thread as they were |
| StreamObject.AsyncStream.StreamPoll | suspend-channel/src/async_stream.rs:22-32 | Puts the pointer back and returns what was sent into its slot |
| StreamObject.Thread.StreamSend | suspend-channel/src/async_stream.rs:34-48 | Delivers into an empty active slot, and panics exactly when there is none or it is filled; the pointer is null afterwards |
| StreamObject.AsyncStream.PollFuture | suspend-channel/src/async_stream.rs:176-191 | A generator sends at most once per poll, always into an empty slot, so neither panic is reachable, and its flush resolves only in a later poll |
| StreamObject.AsyncStream.PollLoop | suspend-channel/src/async_stream.rs:252-262 | Polling an inner stream from a loop goes on with its next item, waits when it waits, and ends when it ends |
| StreamObject.AsyncStream.Observe | suspend-channel/src/async_stream.rs:193-241 | Poll after poll sees the whole meaning in order, one event per poll, and then the end for ever |
| StreamMeaning.TryStreamEndsAtItsError | suspend-channel/src/async_stream.rs:175-191 | `try_stream!` gives Ok items and at most one Err, which is the last thing it gives |
| StreamMeaning.EchoingIsIdentity | suspend-channel/src/async_stream.rs:264-278 | Passing a stream on through any number of streams changes neither items nor pauses |
| StreamMeaning.AskingIsIdentity | suspend-channel/src/async_stream.rs:280-295 | Nor does passing it on with `?` |

## Left out

- Concurrent closing of the channel: `write`'s contended arm returns without acting on `finalize`, and the late arm of `drop_one_side` expects a value. Closing is proved for calls that do not overlap.
- Cancelling a receive after a pending poll, `wait_next_timeout`, `recv_timeout` and `join_timeout`.
- ChannelObject.Channel.Write: no other thread runs during the call; interference is covered by `ChannelOpen`, and `ChannelSolo.SoloWrite` ties the two together. The same holds for `Flush` and `Read`.
- `Sender` and `Receiver` have no class of their own; they are values in `Lifecycle`, which does not capture that a `Flush` borrows its `Sender`.
- SharedObject.SharedInner.ResumePoll: does not terminate by itself while borrows are held, so its contract speaks of the turns it was given; `SharedLimits.ResumeSpins` shows why.
- SharedObject.SharedInner.CancelPoll: stops at the count 1 arm and reports it; `PutBack` goes on where that does no harm, and what it leads to elsewhere is in `SharedLimits`.
- `into_inner`, `CollectInto`, and using a `PinShared` for a second `with`.
- Calls of a lender after its flag has gone wrong or after it has lent too late, other than dropping it: what each of them can lead to is only shown for the cases above.
- PoolRuns.PoolGrowsWithItsQueue: not claimed with an idle timeout or after panics, where it is false.
- The workers of the pool and the unparking and borrowing threads are counted by where they stand, not named.
- PoolObject.ThreadPoolInner.DrainAll: reads the thread count instead of waiting for the lender's collection, which `SharedCount` covers.
- Failed thread spawns, thread names, logging, and how a panic is carried to the joining thread.
- The fallback parker (suspend-core/src/raw_park/default.rs), error codes of the system calls, and clocks.
- Listeners and their reference counts (suspend-core/src/listen.rs): a park in `BlockOn` is a park of the token.
- Generators that use a stream scope from several branches polled together; a generator is one sequential piece of code, whose loops bind an item each and whose items are any function of the items bound.
- Weak memory orderings: atomic operations are sequentially consistent; weak exchanges may fail for no reason.
- Overflow of the reference count.
