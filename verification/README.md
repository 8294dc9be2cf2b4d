# A model of cocotb's runtime

cocotb lets Python coroutines drive an HDL simulator. This project models, in Dafny, the parts of it
in which many small steps have to agree: the cooperative scheduler, the structured-concurrency
helpers and queues built on it, the C++ data structures underneath, and the arithmetic that carries
integers to and from signals. Each part is stated as a state machine whose steps are the operations
of the source, and what is proved about it holds after every run of any length.

Where the source updates objects in place, so does the model: a class with the same fields and
loops, each method of which is proved to take the state to the one that the step function gives.
The theorems about all runs are then proved about the step functions. Coroutines, done-callbacks,
simulator callbacks and `finally` blocks are foreign code: they may make any call that the
interface allows, in any order and any number of times, before they hand control back.

| file | models |
|---|---|
| `Scheduler.dfy`, `SchedulerInvariant.dfy`, `SchedulerSteps.dfy`, `SchedulerRuns.dfy`, `SchedulerResumes.dfy`, `SchedulerEffects.dfy`, `SchedulerCallbacks.dfy`, `SchedulerReturns.dfy`, `Runtime.dfy` | `Task`, `Trigger` and `EventLoop`: the seven task states, the loop's deque, the callbacks of each Trigger, done-callbacks, re-entrant `_cancel_now` |
| `IntrusiveDeque.dfy` | the intrusive doubly linked deque, on the heap, many deques at once |
| `ConcurrentWaiters.dfy`, `TaskManager.dfy`, `TestManager.dfy` | `wait`/`select`/`gather`, the `TaskManager` block, and the end of a test |
| `CoconextQueue.dfy`, `CocotbQueue.dfy` | the two blocking queues: lock hand-off and retry loop |
| `IntegerCodec.dfy`, `DeferredWrites.dfy` | integers as bit strings, the 32-bit and the text write path, coalesced deposits |
| `Clock.dfy`, `FliPool.dfy`, `FliSignalPool.dfy`, `Shutdown.dfy` | the two clock drivers and `Clock.cycles`, the recycling FLI handle pools, start/end-of-sim drains and finalization |
| `Wrappers.dfy`, `Sequences.dfy` | `Option` and `Result`; insertion-ordered dicts as sequences |

## What does not hold as written

Some properties that the code or its comments suggest are false of it. Each is shown to fail by a run
that gets there, with the exact condition, or with what becomes of it in every later run.

- A done-callback added while `_set_outcome` is already running the callbacks of that Task is called
  twice; every other one is called exactly once (`SchedulerCallbacks.EachCallbackRunsOnce`,
  `ALateCallbackRunsTwice`).
- If a done-callback raises, the later ones are not called, `complete` and `_join` are never fired, and
  whoever waits for the Task waits until it is cancelled; nobody waits for a done Task otherwise
  (`SchedulerRuns.NobodyWaitsForADoneTask`, `ALostCompletionIsNeverFired`,
  `SchedulerReturns.ACompletionIsLost`).
- `_cancel_now` does not always end the Task. It returns with one that is not done exactly when the
  coroutine then waits with no cancellation left to answer, which takes an `_uncancel`
  (`SchedulerReturns.CancelNowReturns`, `CancelNowEndsTheTask`, `ATaskSurvives`).
- If `_prime` raises, `_register` leaves its entry in the Trigger's dict, so the Trigger is never primed
  again, and whoever yields it later waits until it is cancelled (`SchedulerRuns.FailedPrimeStrands`,
  `StrandedIsForever`, `LaterWaitersAreStranded`, `SchedulerReturns.ATriggerIsStranded`).
- Two `cancel()` calls on a parent between two of its resumes are counted twice and answered once:
  the scheduler then closes the parent at its next `await`, and children that still run are left
  behind. This happens exactly then (`ConcurrentWaiters.WaitersAreLeftBehindIff`,
  `AWaiterIsLeftBehind`, `TaskManager.ClosedIffCancelledTwice`, `AParentIsClosed`).
- The comment at `_task_manager.py:250` calls the line after it unreachable. It is reached exactly
  when the children were cancelled, the block did not end by CancelledError, and no cancellation is
  counted any more (`TaskManager.UnreachableCodeIsReachedIff`, `UnreachableCodeIsReached`).
- `cancel` raises on a RUNNING Task, and the loops that cancel do not expect it. `TaskManager._cancel`
  raises exactly when the parent, or a child that is left, is RUNNING: with a RUNNING parent nobody is
  cancelled, otherwise exactly the children before the first RUNNING one
  (`TaskManager.FailingChildrenCancelTheOthers`, `TheFirstRunningChildStopsTheLoop`, `TheOthersAreSpared`,
  `HalfOfThemAreCancelled`). The same goes for the waiters of `wait`
  (`ConcurrentWaiters.TheFirstRunningWaiterStopsTheLoop`, `TwoWaitersAreSpared`).
- An `_abort` is left by such an exception exactly when some Task that it lists is RUNNING when it begins,
  and the test is then never reported complete (`TestManager.AbortEndsEveryTask`, `CompletesOnce`,
  `StuckNeverCompletes`, `ARunningTaskIsMet`). Of the Tasks that another `_abort` lists those are left that
  uncancel themselves.
- The error of a Task that is the last one to end after an abort is recorded only after the test has
  been scored (`TestManager.ErrorIsScoredUnlessLast`, `AnErrorIsNotScored`).
- An immediate write is undone by an older pending deposit to the same signal, unless both write the
  same value (`DeferredWrites.ImmediateKeepsOrderIff`, `FaithfulIffOrderly`, `AnImmediateWriteIsUndone`).
- An FLI signal callback that removes itself has its handle released twice: either the pool holds it
  twice, or a registration made inside the callback is lost for ever. Any other callback leaves the
  pool exact (`FliSignalPool.EndIsExactIff`, `ExactIffNeverRemovedInside`, `ARegistrationIsLost`).
- With the lock hand-off queue a `put_nowait` may take the slot that was granted to a waiting `put`, and
  a `get_nowait` the item granted to a waiting `get`. Whoever holds a lock finds room or data throughout a
  run exactly when no such call takes the last one (`CoconextQueue.GrantedIffConsiderate`,
  `NowaitTakesTheGrantedSlot`, `NowaitTakesTheGrantedItem`, `AGrantedSlotIsTaken`, `AGrantedItemIsTaken`).
- A Task that was granted a lock of that queue and dies before it resumes blocks its side for ever. One
  that is cancelled there and lives on blocks it too, until it makes another call of that side. Otherwise
  the side goes on (`CoconextQueue.WritersGoOnIff`, `ReadersGoOnIff`, `BlockedIffHeldByTheDead`,
  `AHolderDies`, `ATaskLivesOn`).
- The retry queue is not fair: a woken getter can be overtaken and has to queue up again, exactly by a
  get that takes an item when there are just as many as woken getters; with more, all of them are
  served (`CocotbQueue.OvertakingIff`, `WokenGettersAreServed`, `WokenGetterIsOvertaken`).
- A woken getter of the retry queue that dies, or is cancelled and lives on, takes its wakeup with it:
  exactly when there were just as many items, another getter then waits beside an item. A getter that is
  cancelled while it is parked leaves its entry behind, and the wakeup that comes to that entry is lost in
  the same way. No put makes up for it (`CocotbQueue.AbandonedWakeupIsLost`,
  `LeftGetterSwallowsTheWakeup`, `LostForGood`, `AWokenGetterDies`, `AGetterLives`).
- A negative value for an enum wider than 32 bits is formatted with a minus sign; within the accepted
  range this is exactly the case in which the text is not binary
  (`IntegerCodec.EnumRoundTripIff`).
- `IntrusiveDeque::clear` does not relink the nodes it drops. Removing one of them later breaks a ring
  unless its neighbours in the rings are still each other's neighbours, as when nothing was pushed
  since (`IntrusiveDeque.Node.DequeRemove`, `StaleLinks`, `StaleRemoval`).

## Model

| member | source | states |
|---|---|---|
| `SchedulerRuns.EveryTaskIsInOnePlace` | python/cocotb/task.py:326-452 | After every run a Task is SCHEDULED iff the loop holds exactly one live entry for it, PENDING iff exactly one Trigger holds exactly one handle of it, RUNNING iff its coroutine is on the stack, and it is queued nowhere otherwise |
| `SchedulerRuns.RunKeepsInv` | python/cocotb/_event_loop.py:44-64 | The whole invariant (placement, stack, cancellation accounts, Trigger ownership, no missed wakeup) holds after any legal sequence of API calls, resumes and simulator callbacks |
| `SchedulerSteps.StepKeepsInv` | python/cocotb/task.py:270-628 | Each single step, a `_prime` that raises included, keeps that invariant, and no reference in the state ever dangles |
| `SchedulerSteps.CancelKeepsInv` | python/cocotb/task.py:543-584 | `cancel` keeps the invariant, raises RuntimeError exactly on a RUNNING Task, and never a KeyError from `_deregister` |
| `SchedulerSteps.CancelNowKeepsInv` | python/cocotb/task.py:586-620 | The same for `_cancel_now`, which enters the coroutine re-entrantly; what it throws is `SchedulerResumes.WhatIsThrown` |
| `SchedulerSteps.YieldKeepsInv` | python/cocotb/task.py:434-446 | Yielding a Trigger keeps the invariant even when `_register` fires at once |
| `SchedulerSteps.YieldFailsKeepsInv` | python/cocotb/task.py:443-446 | So does yielding a Trigger whose `_register` raises: the Task is scheduled with the exception, and only a stale handle is left |
| `SchedulerSteps.FinishKeepsInv` | python/cocotb/task.py:305-319 | Firing `complete` and `_join` after the done-callbacks restores the invariant: no waiter of a done Task is left |
| `SchedulerSteps.BreakOffKeepsInv` | python/cocotb/task.py:313-319 | So does a done-callback that raises, with which the rest of `_set_outcome` is skipped |
| `SchedulerSteps.FireKeepsInv` | python/cocotb/_base_triggers.py:83-98 | Firing a Trigger keeps the invariant |
| `SchedulerSteps.CreateTaskKeepsInv` | python/cocotb/task.py:139-152 | Adding an unstarted Task with its two completion Triggers keeps the invariant |
| `SchedulerInvariant.ReactEffect` | python/cocotb/_base_triggers.py:83-98 | `_react` empties the dict, appends one loop entry per handle in registration order, and changes only the waiters, which become SCHEDULED without an exception |
| `SchedulerInvariant.DeregisterKeepsPlaced` | python/cocotb/_base_triggers.py:75-81 | Taking a PENDING Task out of its Trigger never raises KeyError and leaves every other Task where it was |
| `SchedulerInvariant.UnscheduleKeepsPlaced` | python/cocotb/_event_loop.py:28-29 | Cancelling the ScheduledCallback of a SCHEDULED Task takes exactly that Task out of the loop |
| `SchedulerRuns.StepMoves` | python/cocotb/task.py:54-64 | What any step may do to any Task: the legal arcs of the seven states, when a resume is counted, when outcome and done-callbacks may change |
| `SchedulerRuns.DoneIsForever` | python/cocotb/task.py:305-319 | Once done, a Task keeps its state and outcome for ever and is never resumed again |
| `SchedulerRuns.CancellingGoesOn` | python/cocotb/task.py:347-433 | From a cancellation on, until it is uncancelled, a Task waits for its one throw of CancelledError, or has had exactly one more resume |
| `SchedulerRuns.CancelGivesOneMoreResume` | python/cocotb/task.py:543-584 | A cancelled, not uncancelled Task is resumed exactly once more at most, and is CANCELLED or ERRORED whenever the loop has run dry |
| `SchedulerRuns.CancelNowGivesOneMoreResume` | python/cocotb/task.py:586-620 | `_cancel_now` enters the coroutine of any Task that is not done or RUNNING with CancelledError thrown, counts one cancellation and touches no other Task; it gives the same one more resume, after which the Task is never SCHEDULED again unless it is uncancelled |
| `SchedulerResumes.WhatIsThrown` | python/cocotb/task.py:270-452 | For any step and any Task: a coroutine is entered only by the loop, with the exception its Task was scheduled with, or by `_cancel_now`, with CancelledError; what a Task is scheduled with (nothing, CancelledError, TypeError or the error of `_register`); and `cancel`, `_cancel_now` and `_uncancel` each change the count of cancellations by exactly one |
| `SchedulerResumes.ScheduledUntilEntered` | python/cocotb/task.py:543-584 | Over any run in which a SCHEDULED Task is not entered it stays SCHEDULED, with the same exception, or with CancelledError iff it was cancelled |
| `SchedulerResumes.TheNextResume` | python/cocotb/task.py:346-352 | So at its next resume, after any run, the coroutine gets CancelledError iff it was cancelled since, and otherwise what it was scheduled with |
| `SchedulerResumes.WhatCancelAnswers` | python/cocotb/task.py:543-620 | `cancel` and `_cancel_now` raise iff the Task is RUNNING, and otherwise answer True iff it is not done |
| `SchedulerReturns.CancelNowReturns` | python/cocotb/task.py:586-620 | When `_cancel_now` returns, after any run inside it, the Task is done iff its coroutine has not just waited with no cancellation left to answer; unless it was uncancelled it is CANCELLED or ERRORED |
| `SchedulerReturns.CancelNowEndsTheTask` | python/cocotb/task.py:586-590 | In any run after a `_cancel_now`, once the stack is what it was and nothing has uncancelled the Task, it is CANCELLED or ERRORED |
| `SchedulerReturns.LeavingTheStack` | python/cocotb/task.py:339-452 | The same for every activation of a coroutine: how it stands when its activation leaves the stack |
| `SchedulerReturns.ATaskSurvives` | python/cocotb/task.py:622-628 | A run from the start after which a `_cancel_now` returns with the Task PENDING |
| `SchedulerRuns.WhenTheLoopReturns` | python/cocotb/_event_loop.py:44-64 | When `run` returns every Task is unstarted, done, or PENDING on a Trigger that has not fired, that is stranded, or that a done-callback kept from firing; those with an unanswered cancellation are CANCELLED or ERRORED |
| `SchedulerRuns.NobodyWaitsForADoneTask` | python/cocotb/task.py:759-761 | No Task stays PENDING on `complete` or `_join` of a done Task, whichever came first, unless a done-callback of that Task raised |
| `SchedulerRuns.ALostCompletionIsNeverFired` | python/cocotb/task.py:313-319 | If one did, those who wait for the Task wait in every run in which they are not cancelled |
| `SchedulerReturns.ACompletionIsLost` | python/cocotb/task.py:313-319 | A run from the start that gets there |
| `SchedulerRuns.FiringWakesInOrder` | python/cocotb/_base_triggers.py:218-228 | `Event.set` schedules exactly the waiters of that Event, in the order in which they registered |
| `SchedulerRuns.OwnersAreTheWaiters` | python/cocotb/_base_triggers.py:61-73 | The handles in the dict of a Trigger belong to exactly the Tasks that are PENDING on it |
| `SchedulerRuns.CancelOnlySchedules` | python/cocotb/task.py:543-584 | `cancel` runs no foreign code, changes no other Task, and leaves a Task that is not done or RUNNING SCHEDULED |
| `SchedulerRuns.StartOrder` | python/cocotb/task.py:270-303 | `_start_next` goes before and `_start_soon` behind everything that is scheduled |
| `SchedulerEffects.StepGoes` | python/cocotb/task.py:270-452 | What any step does to loop, stack and Triggers: only the first entry is taken; which Tasks go to the end of the loop, and in which order; coroutines and done-callbacks are entered on top of what executes and only the top one ends; a handle is appended to the dict of its Trigger or taken out, a Trigger that fires is left empty, and an Event remembers whether it was set or cleared last |
| `SchedulerEffects.TheLoopIsFair` | python/cocotb/_event_loop.py:44-64 | Over any run without `_start_next` an entry of the loop with i others before it is reached after exactly i turns, whatever is scheduled or cancelled meanwhile |
| `SchedulerEffects.WokenInOrderOfRegistration` | python/cocotb/_base_triggers.py:61-98 | After any run each dict of a Trigger is in the order in which its Tasks began to wait, and firing schedules them in that order behind everything else |
| `SchedulerEffects.ANewTaskIsFresh` | python/cocotb/task.py:134-153 | A new Task is unstarted, with nothing thrown, counted or called, and has two completion Triggers of its own |
| `SchedulerEffects.DeregisterFailsIff` | python/cocotb/_base_triggers.py:75-81 | `_deregister` raises KeyError iff the handle is not in the dict |
| `SchedulerRuns.EndingDecidesOutcome` | python/cocotb/task.py:352-446 | How a coroutine ends decides state and outcome, including the RuntimeError for an ignored CancelledError, also once it has been closed for that, the TypeError for a foreign object and the error of a failed `_register` |
| `SchedulerRuns.FailedPrimeStrands` | python/cocotb/_base_triggers.py:61-73 | When `_prime` raises, the Task gets the exception and the Trigger is stranded: unprimed, with a handle in its dict |
| `SchedulerReturns.ATriggerIsStranded` | python/cocotb/_base_triggers.py:67-72 | A run from the start that strands a Trigger |
| `SchedulerRuns.StrandedIsForever` | python/cocotb/_base_triggers.py:67-72 | A stranded Trigger stays unprimed in every run |
| `SchedulerRuns.LaterWaitersAreStranded` | python/cocotb/_base_triggers.py:67-72 | Whoever yields a stranded Trigger is PENDING on it after any run in which it is not cancelled |
| `SchedulerRuns.WaitingGoesOn` | python/cocotb/task.py:435-446 | In general a PENDING Task stays so, and is not resumed, through every step but its cancellation and the firing of its own Trigger |
| `SchedulerCallbacks.RunKeepsCalled` | python/cocotb/task.py:682-693 | After every run each done-callback has been called as often as the progress of `_set_outcome` over the live list says |
| `SchedulerCallbacks.EachCallbackRunsOnce` | python/cocotb/task.py:305-319 | A done Task has called each done-callback exactly once, or twice exactly if it was added while they were being called; if the k-th call raised, this holds of the callbacks before it and no later one was called twice |
| `SchedulerCallbacks.ALateCallbackRunsTwice` | python/cocotb/task.py:313-315 | A run in which a callback is added that late and is called twice |
| `Runtime.ExecAppend` | python/cocotb/task.py:270-628 | Whatever is enabled after a run continues it: no run ends in a dangling reference |
| `Runtime.Runtime.StartSoon` | python/cocotb/task.py:270-283 | In place: new state, and RuntimeError exactly unless unstarted |
| `Runtime.Runtime.StartNext` | python/cocotb/task.py:285-303 | In place: the same on the other end of the deque |
| `Runtime.Runtime.Reschedule` | python/cocotb/task.py:321-324 | In place: what `_schedule_resume` does to Task and loop |
| `Runtime.Runtime.CancelTask` | python/cocotb/task.py:543-584 | In place: result, exception and new state of `cancel` in each of the seven states |
| `Runtime.Runtime.CancelTaskNow` | python/cocotb/task.py:586-620 | In place: the same for `_cancel_now` up to the entry into the coroutine |
| `Runtime.Runtime.UncancelTask` | python/cocotb/task.py:622-628 | In place: one cancellation less, never below zero |
| `Runtime.Runtime.DoCallbacks` | python/cocotb/_base_triggers.py:83-88 | In place: the loop over the swapped-out dict does what `_react` specifies |
| `Runtime.Runtime.DeregisterCallback` | python/cocotb/_base_triggers.py:75-81 | In place: removes the handle, un-primes when it was the last, KeyError when absent |
| `Runtime.Runtime.Register` | python/cocotb/_base_triggers.py:61-73 | In place: registers, and primes when it is the first |
| `Runtime.Runtime.AddDoneCallback` | python/cocotb/task.py:682-693 | In place: appends, or calls at once when the Task is done |
| `Runtime.Runtime.WakeWaiters` | python/cocotb/task.py:318-319 | In place: fires `complete`, then `_join` |
| `Runtime.Runtime.CallbackRaised` | python/cocotb/task.py:313-319 | In place: a done-callback that raises out of `_set_outcome` |
| `Runtime.Runtime.Returned` | python/cocotb/task.py:352-368 | In place: a coroutine that returns |
| `Runtime.Runtime.RaisedOut` | python/cocotb/task.py:369-412 | In place: a coroutine that raises |
| `Runtime.Runtime.Yielded` | python/cocotb/task.py:413-446 | In place: a coroutine that yields, with and without an unanswered cancellation |
| `Runtime.Runtime.YieldedUnprimable` | python/cocotb/task.py:443-446 | In place: a coroutine that yields a Trigger which cannot be primed |
| `Runtime.Runtime.PopLeft` | python/cocotb/_event_loop.py:44-64 | In place: takes the first entry and runs it unless cancelled |
| `Runtime.Runtime.Run` | python/cocotb/_event_loop.py:44-64 | For any oracle the loop performs a legal run; it returns only with an empty deque, every unanswered cancellation having ended its Task, or is left by a KeyboardInterrupt or the like, or by the exception of a done-callback, once the Task in question is done |
| `IntrusiveDeque.Node.DequeRemove` | cpp/gpi/core/intrusive_deque.hpp:29-37 | For every node: it ends up self-linked, leaves whichever of all deques holds it, and no other entry changes; all rings stay well formed iff a deque held it or its stale links do no harm (its neighbours in the rings are each other's) |
| `IntrusiveDeque.StaleLinks` | cpp/gpi/core/intrusive_deque.hpp:206-209 | Both directions of that condition, for nodes that no deque holds |
| `IntrusiveDeque.Deque.PushBack` | cpp/gpi/core/intrusive_deque.hpp:152-158 | Appends one node; all deques stay well formed and disjoint |
| `IntrusiveDeque.Deque.PushFront` | cpp/gpi/core/intrusive_deque.hpp:159-165 | Prepends one node; likewise |
| `IntrusiveDeque.Deque.PopBack` | cpp/gpi/core/intrusive_deque.hpp:166-173 | Takes out the last node, or answers null on an empty deque |
| `IntrusiveDeque.Deque.PopFront` | cpp/gpi/core/intrusive_deque.hpp:174-181 | Takes out the first node, or answers null |
| `IntrusiveDeque.Deque.ExtendBack` | cpp/gpi/core/intrusive_deque.hpp:182-193 | Concatenates the other deque behind this one in constant time and empties it |
| `IntrusiveDeque.Deque.ExtendFront` | cpp/gpi/core/intrusive_deque.hpp:194-205 | Concatenates the other deque in front and empties it |
| `IntrusiveDeque.Deque.MoveFrom` | cpp/gpi/core/intrusive_deque.hpp:60-66 | Move assignment takes over the entries, and does nothing on itself |
| `IntrusiveDeque.Deque.Clear` | cpp/gpi/core/intrusive_deque.hpp:206-209 | Empties this deque only |
| `IntrusiveDeque.Deque.Front` | cpp/gpi/core/intrusive_deque.hpp:145-147 | The first entry or null |
| `IntrusiveDeque.Deque.Back` | cpp/gpi/core/intrusive_deque.hpp:148-150 | The last entry or null |
| `IntrusiveDeque.Deque.EmptyIsEmpty` | cpp/gpi/core/intrusive_deque.hpp:151 | The pointer test for emptiness is right |
| `IntrusiveDeque.Deque.Forward` | cpp/gpi/core/intrusive_deque.hpp:129-134 | Forward iteration visits exactly the entries, in order |
| `IntrusiveDeque.Deque.Backward` | cpp/gpi/core/intrusive_deque.hpp:135-142 | Reverse iteration visits exactly the reverse |
| `IntrusiveDeque.StaleRemoval` | cpp/gpi/core/intrusive_deque.hpp:206-209 | What goes wrong when a node dropped by `clear` is removed later: a deque with an entry reports itself empty |
| `ConcurrentWaiters.RunKeepsInv` | python/cocotb/_concurrent_waiters.py:129-205 | For every order of completions, cancellations and resumes: `remaining` is the not-done waiters in order, the flag and the counts of cancels agree, `complete` is set once |
| `ConcurrentWaiters.ChildDoneKeepsInv` | python/cocotb/_concurrent_waiters.py:149-176 | Each of the three done-callbacks keeps that, and `del remaining[task]` never raises KeyError |
| `ConcurrentWaiters.StartWaiters` | python/cocotb/_concurrent_waiters.py:178-180 | Pushing the reversed waiters left starts them in argument order, before everything else |
| `ConcurrentWaiters.AllWaitersAreDone` | python/cocotb/_concurrent_waiters.py:182-205 | On return or re-raised CancelledError all waiters are done; none is ever cancelled twice; when the parent is closed, or left by the exception of `cancel_remaining`, each left-over waiter has been cancelled or was not reached |
| `ConcurrentWaiters.IndexIsTheFirst` | python/cocotb/_concurrent_waiters.py:204-205 | The index is the first completed, or the first failed or cancelled if any, or None, by mode |
| `ConcurrentWaiters.LosersAreCancelled` | python/cocotb/_concurrent_waiters.py:139-145 | From the deciding completion on, each unfinished waiter has been cancelled exactly once, but for those not reached, and before it none |
| `ConcurrentWaiters.TheFirstRunningWaiterStopsTheLoop` | python/cocotb/_concurrent_waiters.py:139-145 | `cancel_remaining` cancels exactly the waiters before the first RUNNING one, and raises iff there is one |
| `ConcurrentWaiters.TwoWaitersAreSpared` | python/cocotb/_concurrent_waiters.py:139-145 | A run in which one of three waiters ends another, and neither it nor the third is ever cancelled |
| `ConcurrentWaiters.WaitersAreLeftBehindIff` | python/cocotb/_concurrent_waiters.py:185-198 | The parent is closed with waiters outstanding iff it was cancelled twice since it last waited and `cancel_remaining` did not raise; it is left by that exception iff it is cancelled while it waits and a waiter is RUNNING |
| `ConcurrentWaiters.AWaiterIsLeftBehind` | python/cocotb/_concurrent_waiters.py:185-198 | A run in which that happens |
| `ConcurrentWaiters.HowTheParentGoesOn` | python/cocotb/_concurrent_waiters.py:182-205 | The next resume of the parent returns iff no CancelledError is thrown into it, with the waiter that decided; it re-raises iff it has been cancelled and every waiter is done |
| `ConcurrentWaiters.CancellationIsNotSwallowed` | python/cocotb/_concurrent_waiters.py:185-198 | Once the parent has been cancelled in its wait, no run brings it to return |
| `ConcurrentWaiters.ClosedAtOnceIff` | python/cocotb/_concurrent_waiters.py:178-202 | With a cancellation left unanswered before it waits the parent is closed at once and every waiter cancelled; without one it waits and none is |
| `ConcurrentWaiters.SelectGivesTheFirst` | python/cocotb/_concurrent_waiters.py:244-246 | `select` answers the index and the outcome of the waiter that completed first, and its assertion holds |
| `ConcurrentWaiters.GatherGivesAllOrTheFirstFailure` | python/cocotb/_concurrent_waiters.py:301-308 | `gather` answers all values in argument order iff all succeeded; otherwise it re-raises the outcome of the first waiter to fail or be cancelled, all that completed before it having succeeded |
| `ConcurrentWaiters.Wait.CancelAll` | python/cocotb/_concurrent_waiters.py:139-145 | In place: the loop cancels each remaining waiter once up to the first RUNNING one, on which it raises; the second call does nothing |
| `ConcurrentWaiters.Wait.TaskDone` | python/cocotb/_concurrent_waiters.py:149-176 | In place: the done-callback of each mode, and whether it raises |
| `ConcurrentWaiters.Wait.ResumeCoroutine` | python/cocotb/_concurrent_waiters.py:182-205 | In place: one resume of the parent, in either loop and with or without CancelledError |
| `TaskManager.RunKeepsInv` | python/cocotb/_task_manager.py:98-307 | The invariant of children, Event, exceptions and cancellations holds over any run |
| `TaskManager.ChildDoneKeepsInv` | python/cocotb/_task_manager.py:194-204 | The done-callback keeps it and never raises KeyError |
| `TaskManager.EventMeansNoneRemaining` | python/cocotb/_task_manager.py:98-123 | `_none_remaining` is set iff every child is done; a child starts iff the parent asks for it inside the block and none has failed; no child is cancelled twice |
| `TaskManager.ChildrenAreDoneAtExit` | python/cocotb/_task_manager.py:271-307 | On every exit by return, group or re-raised cancellation all children are done; on the others each unfinished child has been cancelled exactly once, but for those that `_cancel` did not get to |
| `TaskManager.GroupHoldsAllErrors` | python/cocotb/_task_manager.py:297-307 | A group is raised iff a child or the block failed, and it holds exactly those errors |
| `TaskManager.CancellationGoesOn` | python/cocotb/_task_manager.py:253-307 | `__aexit__` concludes, normally or with a group, iff it is resumed from its first wait without a CancelledError; a cancellation from outside, before or in its waits, goes on as CancelledError iff all children are done by then, and otherwise it waits, is closed, or fails in `_cancel` |
| `TaskManager.CancellationIsNotSwallowed` | python/cocotb/_task_manager.py:272-288 | Once the parent has been cancelled where it waits, no run brings it to a regular end |
| `TaskManager.HowTheBlockEnds` | python/cocotb/_task_manager.py:228-273 | Exactly when each end of the block lets a special exception through, fails in `_cancel`, comes to the token `await`, or waits for the children; and whether its error is kept for the group |
| `TaskManager.FailingChildrenCancelTheOthers` | python/cocotb/_task_manager.py:200-219 | Exactly which failures of children cancel the others; the parent is cancelled with them while the block executes; `_cancel` raises iff the parent is RUNNING then, or one of the children that are left |
| `TaskManager.TheFirstRunningChildStopsTheLoop` | python/cocotb/_task_manager.py:214-219 | Once it comes to the children, exactly those before the first RUNNING one in the dict are cancelled |
| `TaskManager.HalfOfThemAreCancelled` | python/cocotb/_task_manager.py:214-219 | A run in which one child fails, ended by a RUNNING one, and of the other three only one is cancelled |
| `TaskManager.FailingBlocksCancelTheChildren` | python/cocotb/_task_manager.py:236-295 | Exactly which ends of the block have the children cancelled, for every count of unanswered cancellations |
| `TaskManager.TheOthersAreSpared` | python/cocotb/_task_manager.py:214-219 | A run in which a child fails under a RUNNING parent and the other child is never cancelled |
| `TaskManager.ClosedIffCancelledTwice` | python/cocotb/_task_manager.py:259-288 | The parent is closed while it waits, children running, iff it was cancelled twice since it last waited and `_cancel` does not raise; `__aexit__` is left by the exception of `_cancel` iff it is cancelled while it waits and `_cancel` raises |
| `TaskManager.AParentIsClosed` | python/cocotb/_task_manager.py:272-288 | A run in which that happens |
| `TaskManager.ClosedAtTheEndOfTheBlockIff` | python/cocotb/_task_manager.py:240-273 | Exactly when the first `await` of `__aexit__` is answered by closing the parent |
| `TaskManager.UnreachableCodeIsReachedIff` | python/cocotb/_task_manager.py:246-251 | The RuntimeError behind the token `await` is raised iff the children were cancelled, the block did not end by CancelledError, and no cancellation is unanswered |
| `TaskManager.UnreachableCodeIsReached` | python/cocotb/_task_manager.py:251 | A run that gets there |
| `TaskManager.Manager.StartChild` | python/cocotb/_task_manager.py:98-123 | In place: refused or started, and the dict, the Event and the child's setting |
| `TaskManager.Manager.CancelAll` | python/cocotb/_task_manager.py:206-219 | In place: once; it cancels the parent only while the block executes, and raises on a RUNNING parent before any child is cancelled, and on the first RUNNING child before the ones behind it |
| `TaskManager.Manager.ChildFinished` | python/cocotb/_task_manager.py:194-204 | In place: the done-callback, and whether it raises |
| `TaskManager.Manager.AExit` | python/cocotb/_task_manager.py:228-273 | In place: `__aexit__` up to its first suspension, for each way in which the block ends |
| `TaskManager.Manager.AExitResumes` | python/cocotb/_task_manager.py:259-307 | In place: each later resume of `__aexit__` |
| `TestManager.CompletesOnce` | python/cocotb/_test_manager.py:129-168 | `_test_complete_cb` is called at most once and only with no Task left; once finishing, with no Task left and no `_abort` in progress, it has been called iff none of the Tasks that `_abort` listed was RUNNING |
| `TestManager.TheRunDecides` | python/cocotb/_test_manager.py:84-148 | After any run the test is finishing iff its main Task ended, another stopped it or failed unawaited, a timeout fired or it was cancelled; the errors are exactly those reported, in order; the timeout is armed iff the test was started with one and is not finishing |
| `TestManager.AnAbortListsEveryTask` | python/cocotb/_test_manager.py:100-152 | The step that ends the test, a timeout or `cancel` included, records its error, stops the timeout and begins an abort of exactly the Tasks that are left |
| `TestManager.TasksAreThoseNotEnded` | python/cocotb/_test_manager.py:170-178 | After any run the dict holds exactly the Tasks that were started and have not ended, in the order in which they were added |
| `TestManager.TheLoopGoesOn` | python/cocotb/_test_manager.py:150-152 | The loop of `_abort` takes its list from the front one by one, whatever foreign code does inside |
| `TestManager.NothingAfterCompletion` | python/cocotb/_test_manager.py:160-173 | Once complete it stays complete, with no Tasks and one scoring |
| `TestManager.AbortEndsEveryTask` | python/cocotb/_test_manager.py:150-152 | `_abort` is left by an exception iff some Task that it lists is RUNNING when it begins; otherwise, when its loop has ended, each Task listed is gone unless it was uncancelled inside its `_cancel_now` |
| `TestManager.CancelNowLeavesATaskIff` | python/cocotb/_test_manager.py:150-152 | One `_cancel_now` of that loop leaves its Task behind iff that waits with no cancellation left to answer |
| `TestManager.StuckNeverCompletes` | python/cocotb/_test_manager.py:129-158 | After a `_cancel_now` that raised on a RUNNING Task the test is never reported complete, whatever happens |
| `TestManager.ARunningTaskIsMet` | python/cocotb/_test_manager.py:150-152 | A run in which a RUNNING Task kills the main one and the `_abort` inside it comes to that Task |
| `TestManager.WhatEndsTheTest` | python/cocotb/_test_manager.py:180-197 | Which end of which Task starts the shutdown and records an error; it stops the timeout and lists all other Tasks |
| `TestManager.ErrorIsScoredUnlessLast` | python/cocotb/_test_manager.py:175-197 | An unawaited Task's error misses the score iff that Task is the last one to end after an abort |
| `TestManager.AnErrorIsNotScored` | python/cocotb/_test_manager.py:175-197 | A run in which an error misses the score |
| `TestManager.RecordedIsScored` | python/cocotb/_test_manager.py:129-168 | Every error recorded before completion is in the score |
| `TestManager.StepKeepsInv` | python/cocotb/_test_manager.py:66-197 | Each operation keeps the invariant of Tasks, Event, registration and completion |
| `TestManager.Manager.TaskEnds` | python/cocotb/_test_manager.py:66-82 | In place and re-entrant: ending a Task, with the whole `_abort` nested in it, is a legal run, and whether it is left by an exception |
| `TestManager.Manager.Loops` | python/cocotb/_test_manager.py:150-158 | In place and re-entrant: the loop of `_abort`, with arbitrary foreign code inside each `_cancel_now`, is a legal run that ends |
| `TestManager.Manager.Begin` | python/cocotb/_test_manager.py:129-148 | In place: `_abort` up to its loop, with the list of Tasks that it goes through, and that it returns at once when already finishing |
| `TestManager.Manager.StartTest` | python/cocotb/_test_manager.py:84-98 | In place: the main Task is added and the timeout armed if there is one |
| `TestManager.Manager.OnTimeout` | python/cocotb/_test_manager.py:100-102 | In place and re-entrant: a timeout records SimTimeoutError and aborts the test, as a legal run that ends |
| `TestManager.Manager.CancelTest` | python/cocotb/_test_manager.py:121-127 | In place and re-entrant: `cancel` records CancelledError and aborts the test unless that has been done |
| `TestManager.Manager.CancelTaskNow` | python/cocotb/_test_manager.py:150-152 | In place and re-entrant: one `_cancel_now`, which raises iff the Task is on the stack, and otherwise runs it with arbitrary foreign code until it ends or waits |
| `CoconextQueue.NoWakeupIsLost` | python/coconext/queue.py:67-110 | In every reachable state, under any mix of calls, deaths and cancellations, a free and available lock has no live waiter and `maxsize` is kept; as long as no `*_nowait` took what was granted, a lock holder finds space or an item and nothing raises |
| `CoconextQueue.FirstPutFirstGot` | python/coconext/queue.py:206-245 | The j-th answered read returns the item of the right put, both counted in the order of the calls: blocked callers are served in order of arrival, in every run without `*_nowait` from outside |
| `CoconextQueue.NothingIsLost` | python/coconext/queue.py:267-287 | Under any mix of calls the items put are the items got followed by the contents; without `*_nowait` from outside the contents are the items of the puts served, in order of arrival, minus those got |
| `CoconextQueue.NeverBothStuck` | python/coconext/queue.py:98-110 | If a live reader waits and no lock is held, the queue is empty and no live writer waits |
| `CoconextQueue.RunKeepsInv` | python/coconext/queue.py:67-287 | The invariant of locks, history and items over any run, although any Task may die, or leave its call and live on, at any time |
| `CoconextQueue.GrantKeeps` | python/coconext/queue.py:105-110 | The wakeup loop grants the lock to the first live waiter and drops only dead ones |
| `CoconextQueue.GrantedIffConsiderate` | python/coconext/queue.py:215-245 | Over any run whoever holds a lock finds room or data at every moment iff no `*_nowait` from outside takes the last slot or item that was granted; then nothing raises |
| `CoconextQueue.NowaitTakesTheGrantedSlot` | python/coconext/queue.py:215-224 | A `put_nowait` from outside makes the granted `put` raise iff it takes the last slot |
| `CoconextQueue.NowaitTakesTheGrantedItem` | python/coconext/queue.py:234-245 | A `get_nowait` makes the granted read raise iff it takes the last item |
| `CoconextQueue.AGrantedSlotIsTaken` | python/coconext/queue.py:215-224 | A run in which it does |
| `CoconextQueue.AGrantedItemIsTaken` | python/coconext/queue.py:234-245 | A run in which the other does |
| `CoconextQueue.UnattendedWritersWait` | python/coconext/queue.py:85-110 | Once the Task that was granted the write lock is dead, or has left that call and makes no other `put`, the lock keeps its holder and its waiters and no `put` is served, in any run |
| `CoconextQueue.UnattendedReadersWait` | python/coconext/queue.py:67-110 | The same for the read lock, `get` and `peek` |
| `CoconextQueue.WritersGoOnIff` | python/coconext/queue.py:67-110 | Without another `put` by the Task that was granted the write lock, some run serves a `put` iff that Task is alive and still awaits its call |
| `CoconextQueue.ReadersGoOnIff` | python/coconext/queue.py:67-110 | The same for the read lock |
| `CoconextQueue.BlockedIffHeldByTheDead` | python/coconext/queue.py:85-110 | Some run at all serves another call of a side whose lock is held iff the Task that it was granted to is alive: `acquire` lets that Task back in |
| `CoconextQueue.AHolderDies` | python/coconext/queue.py:226-232 | A run that gets there: a granted getter dies, and the next one waits beside an item |
| `CoconextQueue.ATaskLivesOn` | python/coconext/queue.py:72-83 | Another: a granted getter is cancelled and lives on, the next one waits beside an item, and a new `get` of the first one ends that |
| `CoconextQueue.QueueLock.WakeupNext` | python/coconext/queue.py:98-110 | In place: the wakeup loop |
| `CoconextQueue.QueueLock.Release` | python/coconext/queue.py:85-96 | In place: RuntimeError iff unlocked, else release and wake |
| `CoconextQueue.Queue.BeginPut` | python/coconext/queue.py:206-213 | In place: `put` up to its return or its wait, and when it waits |
| `CoconextQueue.Queue.BeginRead` | python/coconext/queue.py:226-253 | In place: `get` and `peek` up to return or wait, and what they return |
| `CoconextQueue.Queue.FinishPut` | python/coconext/queue.py:206-224 | In place: the rest of a `put` that was granted the lock |
| `CoconextQueue.Queue.FinishRead` | python/coconext/queue.py:226-264 | In place: the rest of a read |
| `CocotbQueue.NoWakeupIsLost` | python/cocotb/queue.py:126-169 | While a live getter waits there are at most as many items as woken getters that have not resumed, plus one for each wakeup whose Task died, or was cancelled and lives on; dually for putters and free slots |
| `CocotbQueue.NothingIsLost` | python/cocotb/queue.py:138-169 | Items put equal items got followed by the contents, and `maxsize` is kept, under any mix of blocking and non-blocking calls |
| `CocotbQueue.GetIsServedOrWaits` | python/cocotb/queue.py:148-169 | A turn of `get` takes the oldest item, or leaves the Task waiting |
| `CocotbQueue.PutIsServedOrWaits` | python/cocotb/queue.py:126-146 | A turn of `put` appends its item, or leaves the Task waiting with it |
| `CocotbQueue.NobodyIsForgotten` | python/cocotb/queue.py:76-83 | Over any run a Task that waits in either deque, or has been woken, goes on waiting with its item until its own next turn, death or cancellation |
| `CocotbQueue.WaitsEnd` | python/cocotb/queue.py:76-83 | Deaths and cancellations end exactly the waits of their Task, and each that hits a woken one loses one wakeup |
| `CocotbQueue.RunKeepsInv` | python/cocotb/queue.py:126-169 | That invariant over any run, deaths and cancellations included |
| `CocotbQueue.WakeupNextPicks` | python/cocotb/queue.py:76-83 | The loop wakes the first live waiter, drops only dead ones, and leaves the rest in order |
| `CocotbQueue.FirstParkedFirstWoken` | python/cocotb/queue.py:126-157 | After any run whoever is woken next has waited longer than every other live Task in that deque |
| `CocotbQueue.WokenGetterIsOvertaken` | python/cocotb/queue.py:148-157 | A run in which a woken getter finds nothing and parks again |
| `CocotbQueue.WokenGettersAreServed` | python/cocotb/queue.py:148-157 | With as many items as woken getters, each of these is served in every run without new gets |
| `CocotbQueue.OvertakingIff` | python/cocotb/queue.py:159-169 | A get that takes an item at once leaves them short iff there were just as many |
| `CocotbQueue.ShortGettersParkAgain` | python/cocotb/queue.py:148-157 | When all woken getters are resumed, exactly the ones too many park again |
| `CocotbQueue.WokenPuttersAreServed` | python/cocotb/queue.py:126-136 | The first of these for putters and free slots |
| `CocotbQueue.OvertakingAPutIff` | python/cocotb/queue.py:138-146 | The second for putters |
| `CocotbQueue.AbandonedWakeupIsLost` | python/cocotb/queue.py:76-83 | A woken getter that dies, or leaves and lives on, leaves an item too many beside a live waiting getter iff items and woken getters were equal in number, and in that case it stays so in every run without new gets |
| `CocotbQueue.LeftGetterSwallowsTheWakeup` | python/cocotb/queue.py:76-83 | So does a put iff, with equal numbers, the first entry of a live Task is one that the Task has left |
| `CocotbQueue.AWokenGetterDies` | python/cocotb/queue.py:148-157 | A run that gets there by a death |
| `CocotbQueue.AGetterLives` | python/cocotb/queue.py:148-157 | A run that gets there although nobody dies |
| `CocotbQueue.LostForGood` | python/cocotb/queue.py:126-169 | No put, resumption, death or cancellation makes up for a lost wakeup |
| `CocotbQueue.Queue.Wake` | python/cocotb/queue.py:76-83 | In place: the loop |
| `CocotbQueue.Queue.PutNow` | python/cocotb/queue.py:138-146 | In place: QueueFull iff full, else append and wake |
| `CocotbQueue.Queue.GetNow` | python/cocotb/queue.py:159-169 | In place: QueueEmpty iff empty, else pop and wake |
| `CocotbQueue.Queue.TurnOfPut` | python/cocotb/queue.py:126-136 | In place: one turn of the retry loop |
| `CocotbQueue.Queue.TurnOfGet` | python/cocotb/queue.py:148-157 | In place: one turn of the retry loop |
| `IntegerCodec.IntegerRoundTrip` | python/cocotb/handle.py:1670-1709 | Reading after writing gives the value back, at every width, signed or not, however the simulator extends the 32-bit read |
| `IntegerCodec.RefusedExactlyWhenNotRepresentable` | python/cocotb/handle.py:65-73 | A value is refused iff no bit string of that width reads back as it |
| `IntegerCodec.LogicArrayTakesBothReadings` | python/cocotb/handle.py:1266-1285 | A logic array accepts an integer iff a signed or an unsigned integer object of its width would, and then holds the same digits |
| `IntegerCodec.StoredIsBits` | python/cocotb/handle.py:1678-1691 | Either path stores the two's-complement digits |
| `IntegerCodec.ReadBack` | python/cocotb/handle.py:1693-1709 | Either getter recovers the value from those digits |
| `IntegerCodec.CastKeepsBits` | python/_pygpi/bind.cpp:615-626 | The `int32_t` cast keeps the digits of any integer up to width 32 |
| `IntegerCodec.FormatIsBits` | python/cocotb/handle.py:1280-1285 | Zero-padded binary formatting gives the digits of the bit loop |
| `IntegerCodec.ParseBits` | python/cocotb/handle.py:1705 | Parsing the digits of an unsigned value gives the value |
| `IntegerCodec.WritePathsAgree` | python/cocotb/handle.py:1266-1285 | At width 32 or less the cast and the bit loop write the digits that the text path would, and they parse to the value |
| `IntegerCodec.SameDigitsIffCongruent` | python/cocotb/handle.py:1266-1285 | Two accepted integers store the same digits iff they are congruent modulo 2 to the width |
| `IntegerCodec.SingleLogicAgrees` | cpp/gpi/fli/FliObjHdl.cpp:335-338 | The single-bit branch, which asks only whether the value is zero, agrees at width 1 |
| `IntegerCodec.EnumRoundTripIff` | python/cocotb/handle.py:1544-1590 | An enum is refused like an integer; what is accepted is read as it was written, but for the negative values wider than 32 bits, exactly whose text is not binary |
| `IntegerCodec.FliLogic.SetInt` | cpp/gpi/fli/FliObjHdl.cpp:378-383 | In place: the bit loop fills the buffer with the encoded digits, most significant first |
| `IntegerCodec.FliLogic.ForceText` | cpp/gpi/fli/FliObjHdl.cpp:411-415 | The loop that builds the force string writes the same digits |
| `IntegerCodec.FliLogic.SetBinstr` | cpp/gpi/fli/FliObjHdl.cpp:482-497 | In place: refused iff the length is wrong, else the encoded string |
| `IntegerCodec.FliLogic.GetBinstr` | cpp/gpi/fli/FliObjHdl.cpp:312-321 | In place: decodes the buffer element by element |
| `IntegerCodec.FliLogic.WriteBothWays` | cpp/gpi/fli/FliObjHdl.cpp:377-383 | Both write paths leave the same buffer, and it reads back as the text |
| `DeferredWrites.CoalescingPreservesMeaning` | python/cocotb/handle.py:800-841 | For every interleaving of deposits, orderly immediate writes and ReadWrite phases, after an apply the signals equal replaying all writes in program order |
| `DeferredWrites.DepositsCoalesce` | python/cocotb/handle.py:817-836 | A program that only deposits is orderly, so after an apply the signals are those of its full replay |
| `DeferredWrites.FaithfulIffOrderly` | python/cocotb/handle.py:817-841 | Over any run the signals, with the pending writes applied, follow program order throughout iff every immediate write outside the ReadWrite phase is orderly |
| `DeferredWrites.PendingIsPrimed` | python/cocotb/handle.py:817-836 | Pending writes have distinct handles, ReadWrite is primed iff some are pending, and none are in the ReadWrite phase |
| `DeferredWrites.PendingIsOldestFirst` | python/cocotb/handle.py:789-830 | After any run the pending writes are the last deposit for each handle since ReadWrite last fired, oldest first, and the phase is what the triggers say |
| `DeferredWrites.ReplayPop` | python/cocotb/handle.py:829-830 | Dropping an earlier write to a handle that is written again changes nothing |
| `DeferredWrites.ImmediateKeepsOrderIff` | python/cocotb/handle.py:838-841 | An immediate write outside the ReadWrite phase keeps program order iff no pending deposit holds another value for its signal |
| `DeferredWrites.AnImmediateWriteIsUndone` | python/cocotb/handle.py:838-841 | A run in which one is overtaken |
| `DeferredWrites.TrustingWritesAgree` | python/cocotb/handle.py:784-797 | The mode that trusts inertial writes ends with the same signals |
| `DeferredWrites.WriteScheduler.Schedule` | python/cocotb/handle.py:817-841 | In place: apply at once, queue and prime, or write through |
| `DeferredWrites.WriteScheduler.ApplyScheduledWrites` | python/cocotb/handle.py:807-815 | In place: the loop replays the pending writes and clears them |
| `DeferredWrites.WriteScheduler.ReadWriteFires` | python/cocotb/_gpi_triggers.py:216-220 | In place: the writes are applied before the callbacks of the phase |
| `Clock.DriversAgree` | python/cocotb/clock.py:330-340 | The Python loop and `GpiClock` emit the same times and values, for every valid clock and any number of events |
| `Clock.Drive` | python/cocotb/clock.py:330-340 | The Python loop emits exactly the specified waveform |
| `Clock.GpiClock.Emit` | python/_pygpi/bind.cpp:967-991 | So does `GpiClock`, toggle by toggle |
| `Clock.GpiClock.Start` | python/_pygpi/bind.cpp:940-956 | In place: EBUSY iff it is active, EINVAL iff the parameters are bad, else the first toggle, and EAGAIN iff the next cannot be registered |
| `Clock.GpiClock.Toggle` | python/_pygpi/bind.cpp:967-991 | In place: the new level, and the delay to the next edge, or a stopped clock and EAGAIN |
| `Clock.GpiClock.Stop` | python/_pygpi/bind.cpp:958-965 | In place: stops, and tells whether it was running |
| `Clock.NextTime` | python/_pygpi/bind.cpp:973-975 | The waveform starts at once with the asked level, alternates, holds each level for its length, its times grow, and it repeats after one period |
| `Clock.SleepingPeriodsIsExact` | python/cocotb/clock.py:394-396 | After an edge, sleeping n periods with one Timer and waiting once more ends where n waits end |
| `Clock.SleepingChangesIsExact` | python/cocotb/clock.py:390-393 | For every change of value, skipping an even number of them and waiting for the rest does too, at any duty cycle |
| `Clock.Cycles` | python/cocotb/clock.py:376-402 | `cycles` ends on the same event as that many plain waits, and refuses exactly negative numbers |
| `FliPool.PoolIsExact` | cpp/gpi/fli/FliImpl.hpp:57-83 | After every run as many handles exist as were ever out at once; free ones are distinct and without wakeup; each outstanding one has exactly one wakeup, for its present registration |
| `FliPool.WakeupsAreNeverStale` | cpp/gpi/fli/FliCbHdl.cpp:79-88 | A wakeup always belongs to a registration that is not over and was not called; firing it calls that one iff not removed and touches no other |
| `FliPool.RemovedIsNeverCalled` | cpp/gpi/fli/FliCbHdl.cpp:90-97 | A registration is called at most once, never once removed, and at the end iff it was not removed |
| `FliPool.StepTreats` | cpp/gpi/fli/FliCbHdl.cpp:64-97 | What every step does to every registration: called by the one wakeup of its handle unless removed, removed only while not called, over when its callback returned or its wakeup came too late |
| `FliPool.NewRegistrations` | cpp/gpi/fli/FliImpl.hpp:62-83 | A new registration gets a fresh or free handle that no other one in use has, the one released last if there is any |
| `FliPool.RunsGoOn` | cpp/gpi/fli/FliCbHdl.cpp:64-97 | Whatever is enabled after a run continues it: every reference in the pool points somewhere |
| `FliPool.StepKeepsInv` | cpp/gpi/fli/FliImpl.cpp:594-609 | Registering, removing, firing and ending a firing keep the pool's invariant |
| `FliSignalPool.ExactIffNeverRemovedInside` | cpp/gpi/fli/FliCbHdl.cpp:99-142 | Over any run the pool stays exact at every step iff no callback removes itself |
| `FliSignalPool.EndIsExactIff` | cpp/gpi/fli/FliCbHdl.cpp:123-142 | When a callback returns, whatever it registered and removed: no handle is free twice and every registration has its handle to itself, iff it did not remove itself |
| `FliSignalPool.EndAfterRemoval` | cpp/gpi/fli/FliCbHdl.cpp:123-142 | Otherwise the handle is free twice, or was registered anew inside the callback and is lost to that registration |
| `FliSignalPool.LostIsNeverCalled` | cpp/gpi/fli/FliCbHdl.cpp:106-142 | A lost registration is never called in any run |
| `FliSignalPool.TakenOverIsLost` | cpp/gpi/fli/FliImpl.hpp:62-78 | A registration whose handle is handed out again is lost |
| `FliSignalPool.ARegistrationIsLost` | cpp/gpi/fli/FliCbHdl.cpp:123-142 | A run in which a callback removes itself and registers another that is never called |
| `FliSignalPool.PoolIsExact` | cpp/gpi/fli/FliImpl.hpp:57-83 | Over clean runs as many signal handles exist as were ever out at once, the free ones are distinct and exactly the insensitive ones, and each other one serves its own registration |
| `FliSignalPool.RemovedIsNeverCalled` | cpp/gpi/fli/FliCbHdl.cpp:106-142 | Over clean runs a user is called at most once, never once removed, and at the end iff not removed |
| `FliSignalPool.FliSignalCallbacks.RegisterValueChange` | cpp/gpi/fli/FliImpl.hpp:62-77 | In place: acquires and arms a handle |
| `FliSignalPool.FliSignalCallbacks.RemoveCallback` | cpp/gpi/fli/FliCbHdl.cpp:136-142 | In place: desensitizes and releases it |
| `FliSignalPool.FliSignalCallbacks.Run` | cpp/gpi/fli/FliCbHdl.cpp:106-134 | In place, with foreign code in the callback: a legal run, nothing at all on a wrong edge, and exact iff it did not remove itself |
| `FliPool.FliProcessCbHdlCache.Acquire` | cpp/gpi/fli/FliImpl.hpp:62-77 | In place: the last free handle, or a new one iff none is free |
| `FliPool.FliProcessCbHdlCache.Release` | cpp/gpi/fli/FliImpl.hpp:78 | In place: back on the free list |
| `FliPool.FliProcessCbHdlCache.RegisterTimed` | cpp/gpi/fli/FliImpl.cpp:594-609 | In place: a recycled handle has just the new wakeup and no other handle changes |
| `FliPool.FliProcessCbHdlCache.Run` | cpp/gpi/fli/FliCbHdl.cpp:79-88 | In place: calls the user iff not removed, and recycles the handle |
| `Shutdown.CallbacksRunOnceInOrder` | cpp/gpi/core/GpiCommon.cpp:701-771 | Each start- or end-of-sim callback runs at most once, in order of registration, and never when removed, although callbacks register and remove others |
| `Shutdown.DrainsRunTheirOwn` | cpp/gpi/core/GpiCommon.cpp:704-748 | A startup drain runs start-of-sim callbacks only, the others end-of-sim callbacks only, each the first of its deque, and none ends before its deque is empty |
| `Shutdown.DrainsAreComplete` | cpp/gpi/core/GpiCommon.cpp:704-748 | When a drain ends each callback registered so far has run or been removed, and not both, and the next registration registers the simulator's callback anew |
| `Shutdown.DrainRunsTheDeque` | cpp/gpi/core/GpiCommon.cpp:704-748 | A drain whose callbacks do nothing else runs the whole deque from the front, and then ends |
| `Shutdown.WaitingCallbacksHaveACaller` | cpp/gpi/core/GpiCommon.cpp:715-771 | As long as a callback waits, the callback of the simulator that will run it is registered |
| `Shutdown.HistoryIsTheRun` | cpp/gpi/core/GpiCommon.cpp:667-775 | Numbers of registrations, removed callbacks and finalizers are those of the run, the finalizers in order of registration |
| `Shutdown.FinalizesOnce` | cpp/gpi/fli/FliCbHdl.cpp:28-59 | `gpi_finalize` runs at most once, has run iff the simulation is finishing and no callback executes, only with no end-of-sim callback left, and runs the finalizers in reverse |
| `Shutdown.FinishesIff` | cpp/gpi/fli/FliCbHdl.cpp:36-58 | Over any run the simulation is finishing iff somebody called `gpi_finish`, an ordinary callback returned an error, or a callback of a startup or quit drain that has ended did |
| `Shutdown.ControlGoes` | cpp/gpi/fli/FliCbHdl.cpp:28-59 | Where control goes with each step: a failed callback leads to the end-of-sim callbacks and to finalization, any other back to the simulator; a callback fired while finalizing is ignored |
| `Shutdown.NothingRunsAfterFinalize` | cpp/gpi/fli/FliCbHdl.cpp:28-34 | Nothing changes any more afterwards |
| `Shutdown.RunKeepsInv` | cpp/gpi/core/GpiCommon.cpp:667-771 | What was run followed by what is queued is always what was registered and not removed |
| `Shutdown.GpiCallbacks.Register` | cpp/gpi/core/GpiCommon.cpp:715-734 | In place: appends, and registers the simulator's callback when there is none |
| `Shutdown.GpiCallbacks.Drain` | cpp/gpi/core/GpiCommon.cpp:704-713 | In place: the drain loop with foreign code inside each callback runs exactly those that remain, and answers an error iff one of them did |

## Left out

- Tasks and Triggers are records in two sequences of one `Runtime` object and refer to each other by index; that they are separate heap objects is not captured.
- Bridge threads: `run_bridge_threads` and the exclusion between scheduler and thread; `EventLoop.run` is modelled without them.
- Only simulator Triggers can fail to be primed; the `_prime` of an Event, a NullTrigger or a completion Trigger does not raise.
- A `coro.close()` that raises.
- RaisedOut: a KeyboardInterrupt, SystemExit or BdbQuit ends its Task here, and leaves the loop in `Run`; where it passes through the code that called `_cancel_now`, that code is foreign and may do anything.
- Callbacks of a Trigger that are not Tasks (a timeout, `_on_complete`, the write callback) share no dict with Tasks in the model.
- `_InternalEvent` is an Event; that it may be awaited only once is not modelled. The `Lock` Trigger is not modelled.
- The deprecated `Task.kill` is no step of the scheduler; for the helpers built on it, it is one of the ways in which a Task can end. Names, logging, `locals`, post-mortem debugging, current-task bookkeeping.
- `regression.py` beyond the call of `_test_complete_cb`: tear-down of pending writes, scoring, reporting.
- Explicit use of `write_lock` and `read_lock` by user code, including a second `acquire` by one who holds the lock (by one who left the call that was granted it, it is modelled); priority and LIFO queues.
- ShortGettersParkAgain: resumes the woken getters in the order in which they were woken.
- LogicArray values that are strings, and the upper-casing of bit strings; variables, releases and the reporting of simulator errors in the FLI setters.
- SetInt: widths up to 32, because shifting a 32-bit integer further is undefined in C++.
- A scheduled write that raises while being applied.
- TrustingWritesAgree: compares signals at the end of a ReadWrite phase, not between phases.
- Conversion of periods to simulator steps in floating point.
- Cycles: a Timer is taken to fire before the edges of its time step, each clock event to change the signal, and the division by two to be exact.
- Simulator callbacks that re-enter the FLI while another callback executes; removing a timed handle after it was recycled, or an internal callback from inside itself.
- Handle discovery and iteration, `GpiHandleStore`, bootstrap, dynamic loading, configuration, `runner.py`, VPI and VHPI.
