# A verified model of GNU Pth

GNU Pth is a cooperative thread library: threads give up the processor only when they call the
library, a scheduler picks the next one from a queue of priorities that grow with age, and an event
manager decides which waiting threads may go on. This project models that core in Dafny and proves
what it promises, over every sequence of calls and every interleaving.

The model has four layers.

- **Linked structures on the heap.** `PriorityQueue` is the thread queue of `src/pth_pqueue.c`: a
  circular doubly linked ring in which the head holds an absolute priority and every other thread
  only its distance to its predecessor. `Ring` is the ring of `src/pth_ring.c`, `Message` the ports
  built on it, `EventRing` the rings of events. Each stands for a plain sequence (`PriorityOrder`
  for the queue), and every method is proved against that sequence. `LinkedPass` walks two such
  queues at once, as the event manager does.
- **Scheduler and event manager.** `EventManager` says what the two passes around select(2) do,
  `Scheduler` what every call and every context switch does to the five queues, `Runs` what a run
  is. `SchedulerLoop` is the same thing as code, with global queues changed in place and nested
  loops over threads and events; its method `Perform` does one step of a run and is proved to do
  what the functions say. `Partition`, `SwitchFacts`, `Suspension`, `Replies`, `Exits`, `Fairness`,
  `EventProperties` and `EventOutcomes` hold the results.
- **Synchronization.** Code runs undisturbed between two switches to the scheduler, so `Mutex`, `Cond`,
  `Barrier` and `RwLock` are state machines with one program counter per thread, and their results
  hold for all interleavings. `SyncObjects` is the same as code on objects: each of its classes has
  a method `Perform` that does any step of its protocol. `Marking` says whom a pass of the event
  manager marks, and `Passes` proves that a pass of a protocol is a round of the event manager.
  `WaitQueue`, `Coupling` and `CondRuns` put condition variables on the scheduler itself: every run of
  the scheduler whose threads use one is, act by act, a run of the protocol.
- **Algorithms.** `Writev` is the partial-write loop, `FdSets` the bit-array loops behind the one
  select(2), `TimeArith` the time values, `Format` integer formatting.

select(2), the clock, event functions, raised signals and write(2) are parameters: a *turn* of the
event manager carries what it meets, and only what an error-free select(2) promises is asked of it
(`EventManager.Honest`). A context switch is a hand-over to the scheduler. Integers are unbounded,
except that `TimeArith.Compare` truncates the difference of seconds to 32 bits as the code does,
and `Format.Magnitude` is 64 bits wide.

## Main results

1. **No thread is lost, none is in two places** (`Runs.RunInvariant`, `Runs.EveryRun`): in every
   state of every run each thread is the running one or in exactly one queue, once, its state names
   that queue, the number of threads is spawned minus freed, and no step ends in the scheduler's
   "no more threads" abort. A thread that is suspended and later resumed is back in the queue it was
   taken from, whatever happened in between (`Suspension.SuspendResume`). A joinable thread that exits
   stays in the dead queue along every run until a join or an abort frees it, and nothing else does
   (`Exits.DeadUntilJoined`).
2. **Bounded waiting** (`Fairness.BoundedWaiting`), with the exact place of a ready thread after
   any context switch (`Fairness.SwitchPosition`). The bound holds for every run, with favoured new
   threads and directed yields, as long as what enters the ready queue enters at a priority of at
   most B; without that there are runs from the start of the library in which favouring new threads
   starves a thread for as long as you like (`Fairness.FavouringStarves`).
3. **The scheduler never sleeps on work**: with a thread ready or new, whatever the others wait for, a
   select(2) that finds nothing is answered at once and a thread is dispatched
   (`SwitchFacts.BusyNeverSleeps`), and a select(2) may come back with nothing exactly when a thread is
   ready or new, something has occurred or a timer runs (`SwitchFacts.MayFindNothing`).
4. **Directed yield**: to a new thread always (`Fairness.YieldToNew`), to a ready thread exactly
   when nobody enters the ready queue above it (`Fairness.YieldToReady`).
5. **The delta-coded queue means the plain one** over every history (`PriorityReplay.Replay`), also
   while the second pass of the event manager decides thread by thread whom to take out of the
   queue under its own walk (`LinkedPass.SecondPass`).
6. **One select(2) for all** answers each waiting thread as one of its own would
   (`EventProperties.Multiplex`); its delay is exactly the time to the first deadline
   (`EventProperties.DelayExactly`), and no timer is over before its time (`EventProperties.NeverEarly`);
   a notification wakes exactly one waiter, a broadcast all, in one pass
   (`EventProperties.CondRound`, `EventProperties.OneNotifyOneRound`), so the passes that the
   protocols of conditions, barriers and mutexes assume are rounds of the event manager
   (`CondRuns.RoundIsPass`, `Passes.BarrierPassIsRound`, `Passes.MutexPassIsRound`).
7. **Mutual exclusion** (`Mutexes.MutualExclusion`, `Mutexes.OneOfTheMarked`), and hand-over: a waiter
   whose mutex a pass finds free has it when it is woken, unless somebody else took it and still holds
   it then (`Mutexes.HandOver`). A condition wait gives the mutex back as it was
   (`CondVars.AwaitRestores`), and notifications end no more waits than were sent
   (`CondVars.AtMostOneEach`). Whole runs of the scheduler are runs of that protocol: each call of
   a thread is its own step there, the suspension and resumption of a waiting thread too, and each entry
   into the scheduler is a row of passes; whenever a thread runs, the queues hold exactly the threads
   that the protocol says (`CondRuns.EveryRunIsProtocol`). Meanwhile the threads may do anything else,
   except to cancel or abort one that is inside a wait.
8. **Barriers** are safe for any number of threads (`Barriers.BarrierSafety`), and their one-bit
   cycle flag is enough exactly when no more threads take part than the threshold asks for
   (`BarrierExact.FlagSuffices`).
9. **Read-write locks** keep writers apart exactly as long as no first reader that left early comes
   back to write (`RwLocks.RunSafeExactly`).

## What is false, and exactly when

The proofs found promises that the code does not keep. Each has a concrete input and a condition
that a caller can check.

- A barrier's one-bit flag lets a thread of a completed generation go back to sleep when more
  threads than the threshold take part and the threshold is 2 or more (`BarrierExact.Stranded`,
  `BarrierExact.FlagSuffices`).
  The head light is never returned.
- A first reader that leaves before the others still owns the writers' mutex: it can write while
  they read (`RwLocks.Overlap`, `RwLocks.RunSafeExactly`), and the last of the others cannot release
  (`RwLocks.Refused`, `RwLocks.RefusedExactly`).
- A notification that finds nobody in the waiting queue can end a wait that begins after it, against
  the POSIX semantics named at `src/pth_sync.c:309`: a plain one on the spot (`CondVars.SelfNotified`),
  a broadcast in the next pass (`CondVars.SelfBroadcast`), and a single one when the only waiter has
  left by its extra event (`CondVars.ExtraLeft`) or is suspended (`CondVars.SuspendedMisses`). A wait is
  ended by a notification from before it began exactly when the last notification that did anything, of
  either kind, found no thread in the waiting queue for the condition, no pass since has found one
  there, and no wait has begun since: in every run of the protocol (`CondVars.StaleExactly`) and in every
  run of the scheduler (`CondRuns.StaleOnScheduler`).
- Signal 32 can be raised for a thread but never ends its wait: raising wakes a thread that seeks the
  signal, and that would wait on otherwise, exactly for signals below 32
  (`WaitQueue.RaiseWakesExactly`, `EventOutcomes.LastSignalUnseen`).
- An exiting thread gives back all its mutexes exactly when it holds none, or one, once
  (`Mutexes.ReleaseAllEmpties`); a thread that takes two free mutexes and exits leaves one locked
  (`Mutexes.ForgottenLock`).
- Aborting another thread fails exactly when that thread is suspended, or dead and detached since
  (`Replies.AbortExactly`, `Replies.SuspendedSurvives`, `Replies.DetachedSurvives`); cancelling a
  live thread in asynchronous mode fails exactly when it is suspended (`Replies.CancelExactly`,
  `Replies.SuspendedSurvives`).
- A directed yield lowers the priority of the thread that it favours exactly when that thread is first
  in its queue and more than one above the next (`PriorityFacts.FavoriteLowers`,
  `Fairness.FavourCanLower`).
- Destroying a port ends exactly when no pending message replies to that port
  (`Messages.DrainTerminates`, `Messages.SelfReply`); a message without a reply port is dropped.
- A gather-write returns -1 although bytes were sent exactly when an extra event comes after a first
  write that took some of the bytes, but not all (`Writev.ResultExact`, `Writev.LostCount`), and the
  scratch vector of the call has room for the whole vector exactly for at most 32 and for more than
  512 entries (`Writev.ScratchSuffices`).
- Decimal and octal numbers of 20 digits or more lose what is above the 19th digit
  (`Format.DigitsDecode`, `Format.TopDigitLost`), and zero padding with a precision can make a field
  too narrow (`Format.NarrowField`, `Format.FieldWidth`).
- The sum of two proper times holds a whole second in its microseconds exactly when theirs add up to one
  (`TimeArith.SumProper`, `TimeArith.SumKeepsSecond`).
- Times whose seconds differ by 2^32 compare as equal (`TimeArith.CompareTruncates`); comparison is
  right exactly when the last 32 bits of the difference of seconds show its sign
  (`TimeArith.CompareExactly`).

Where comments in the source say otherwise, the model follows the code: `src/pth_sync.c:369-371`
means to hand out the head light, and `src/pth_sync.c:135` means to release all mutexes.

## Model

| member | source | states |
|---|---|---|
| `PriorityFacts.InsertUnique` | src/pth_pqueue.c:52-94 | any queue in order that is q plus one entry behind all of its priority is the result of the insertion: stable insertion leaves no choice |
| `PriorityFacts.InsertOne` | src/pth_pqueue.c:52-94 | the newcomer has its priority and stands behind exactly those of at least that; the others keep theirs |
| `PriorityFacts.InsertOthers` | src/pth_pqueue.c:66-91 | an insertion keeps everybody's priority and moves back by one exactly those of strictly lower priority |
| `PriorityFacts.DeleteOthers` | src/pth_pqueue.c:128-162 | deleting a thread keeps every other thread's absolute priority and relative order |
| `PriorityFacts.FavoriteOnTop` | src/pth_pqueue.c:171-184 | the favoured thread is first, one above the rest, and the rest keeps its order |
| `PriorityFacts.FavoriteLowers` | src/pth_pqueue.c:171-184 | favouring lowers the priority of a thread exactly when it is first and more than one above the next |
| `PriorityFacts.IncreaseOthers` | src/pth_pqueue.c:187-196 | aging adds exactly one to everybody and moves nobody |
| `PriorityFacts.KeepOne` | src/pth_sched.c:677-839 | a waiting thread that is not woken stays queued at its absolute priority |
| `PriorityFacts.KeepOrder` | src/pth_sched.c:677-839 | the threads that are not woken keep their order, both ways |
| `PriorityFacts.BagWake` | src/pth_sched.c:677-839 | what leaves the waiting queue is in the ready queue: no thread is lost or doubled by a pass |
| `PriorityQueue.PQueue.Insert` | src/pth_pqueue.c:52-94 | the linked, delta-coded ring stands for the stable insertion into the plain sequence |
| `PriorityQueue.PQueue.DelMax` | src/pth_pqueue.c:97-125 | returns the first thread of maximal priority and leaves the rest unchanged, null exactly when empty |
| `PriorityQueue.PQueue.Delete` | src/pth_pqueue.c:128-162 | takes one thread out and hands its distance on, so that all other priorities stay |
| `PriorityQueue.PQueue.Favorite` | src/pth_pqueue.c:171-184 | moves a thread to the top of the sequence |
| `PriorityQueue.PQueue.Increase` | src/pth_pqueue.c:187-196 | one assignment to the head raises every absolute priority by one |
| `PriorityQueue.PQueue.Tail` | src/pth_pqueue.c:211-218 | the last thread, null when empty |
| `PriorityQueue.PQueue.Walk` | src/pth_pqueue.c:221-238 | the neighbour in either direction, null at the ends |
| `PriorityQueue.PQueue.Contains` | src/pth_pqueue.c:241-255 | true exactly for queued threads |
| `PriorityQueue.PQueue.FavoritePrioView` | src/pth_p.h:330-331 | the priority one above the head, PRIO_MAX when empty |
| `LinkedPass.SecondPass` | src/pth_sched.c:677-839 | on the linked queues: one walk delivers late results to every ring, visits every thread once although it unlinks threads under itself, wakes exactly those with a non-pending event or a cancel request, in walking order and one above their priority, and keeps the others in order at their absolute priorities |
| `PriorityReplay.Replay` | src/pth_pqueue.c:42-255 | after any possible sequence of operations the ring decodes to the plain sequence, q_num is its length and delmax returned what the sequence says |
| `PriorityReplay.AfterInOrder` | src/pth_pqueue.c:42-255 | every history ends in descending order with no thread twice |
| `TimeArith.SumTotal` | src/pth_p.h:391-397 | addition preserves total microseconds and the range of the microseconds |
| `TimeArith.DifferenceTotal` | src/pth_p.h:399-405 | subtraction preserves total microseconds and the range of the microseconds |
| `TimeArith.SumProper` | src/pth_p.h:391-397 | the sum of two proper times is proper exactly when their microseconds do not add up to a second |
| `TimeArith.SumKeepsSecond` | src/pth_p.h:391-397 | half a second and half a second give a million microseconds |
| `TimeArith.DifferenceProper` | src/pth_p.h:399-405 | the difference of two proper times is proper |
| `TimeArith.RoundTrip` | src/pth_p.h:391-405 | subtracting what was added restores the total |
| `TimeArith.CompareOrder` | src/pth_time.c:90-98 | comparison never contradicts the order of the microseconds as long as the seconds differ by a 32-bit number, and is exact on normalized times |
| `TimeArith.CompareExactly` | src/pth_time.c:90-98 | two numbers of seconds compare as they should, for all microseconds, exactly when the last 32 bits of their difference show its sign |
| `TimeArith.CompareTruncates` | src/pth_time.c:90-98 | times 2^32 seconds apart compare as equal |
| `TimeArith.TimeVal.Add` | src/pth_p.h:391-397 | the in-place addition is the sum |
| `TimeArith.TimeVal.Sub` | src/pth_p.h:399-405 | the in-place subtraction is the difference |
| `EventManager.RoundProgress` | src/pth_sched.c:586-839 | a blocking round under an honest select(2) wakes a thread or is repeated for an event function |
| `EventManager.TimerOfThreads` | src/pth_sched.c:516-528 | the timer that a blocking select(2) waits for belongs to a pending event |
| `EventManager.AskedByThread` | src/pth_sched.c:459-488 | whatever is asked of select(2) is asked for an event that is still pending |
| `EventManager.DeliverFound` | src/pth_sched.c:689-745 | a descriptor found ready that a pending event asked for wakes its thread |
| `EventManager.DeliverKeepsWakes` | src/pth_sched.c:677-839 | the second pass puts no event back to pending |
| `EventOutcomes.PlainRound` | src/pth_sched.c:530-575 | a wait for a message, mutex, thread or function is over after a round exactly when what it waits for is the case, whatever else waits |
| `EventOutcomes.TimerRound` | src/pth_sched.c:516-528 | a timer is over exactly when its time was past, or when the blocking select(2) timed out and it is the one that was next due |
| `EventOutcomes.SignalRound` | src/pth_sched.c:489-514 | each pending signal from 1 to 31 goes to the first event that seeks it, once |
| `EventOutcomes.AnyExactly` | src/pth_sched.c:577-587 | the manager need not wait exactly when some event has occurred in the first pass or some thread is to be cancelled |
| `EventOutcomes.CatchExactly` | src/pth_sched.c:489-514 | a signal is caught during select(2) exactly when more events seek it than the pending one serves |
| `EventOutcomes.RaisedExactly` | src/pth_sched.c:777-791 | a signal wait that is on in the second pass is over exactly when a signal that it sees was raised and no earlier event seeks it |
| `EventOutcomes.CaughtSignalWakes` | src/pth_sched.c:777-791 | while the manager waits, a signal that some event seeks can be raised through the signal pipe, and the first event that seeks it is then over |
| `EventProperties.CondRound` | src/pth_sched.c:540-551 | one round marks all waiters after a broadcast, exactly one after an unhandled signal if there is one, none without a signal; it clears all flags once anybody was marked and changes none otherwise |
| `EventProperties.OneNotifyOneRound` | src/pth_sched.c:797-805 | one notification never serves waiters in two rounds |
| `Passes.CondPass` | src/pth_sched.c:540-551 | whom a round releases from waits for one condition, and the flags it leaves, are what a pass chooses and leaves, with any other threads and events around |
| `CondRuns.RoundIsPass` | src/pth_sched.c:797-805 | every round of the event manager is a legal pass of the condition variable protocol, which serves the condition and releases those whose extra event has occurred, and the waiting queue is again the one that the protocol says |
| `CondRuns.EveryRunIsProtocol` | src/pth_sched.c:190-380 | every run of the scheduler whose threads acquire, release, await, notify, suspend, resume and do anything else is a run of the protocol, act by act: each call is its step, each suspension or resumption of a waiting thread too, and each entry into the scheduler a row of passes; before and after every act the fields agree, every thread is at the same place, and the queues hold exactly the sleepers and lockers with their rings |
| `CondRuns.StaleOnScheduler` | src/pth_sync.c:266-321 | for every await in a run of the scheduler: it is ended by a notification from before, and finds the condition signaled, exactly when the last of the notifications of that run that did anything found nobody in the waiting queue, no pass since has found anybody there and no wait has begun since |
| `CondRuns.BootStarts` | src/pth_lib.c:59-136 | the library right after its start is such a beginning |
| `Coupling.TieRound` | src/pth_sched.c:534-551 | a round takes one waiter of a condition out of the waiting queue, all or none, besides only those with an extra event, and the waiters of a mutex exactly when it is free; everybody else stays with the same ring |
| `Coupling.TieCall` | src/pth_lib.c:325-583 | no call that leaves these threads and the condition alone changes who waits for the two |
| `Coupling.TieSuspend` | src/pth_lib.c:538-560 | suspending a waiter takes it out of the waiting queue with its ring, and nobody else |
| `Coupling.TieResume` | src/pth_lib.c:563-583 | resuming a waiter puts it back there with the same ring |
| `WaitQueue.RoundWaiter` | src/pth_sched.c:677-839 | a waiting thread leaves the queue exactly when it wakes up, and otherwise keeps its ring and its state |
| `WaitQueue.RaiseEndsWait` | src/pth_lib.c:344-366 | a thread that waits for a signal below 32 is out of the waiting queue after a switch that follows when the signal is raised for it |
| `WaitQueue.RaiseWakesExactly` | src/pth_lib.c:344-366 | raising a signal wakes a thread that seeks it, and that the round would otherwise leave waiting, exactly when the signal is below 32 |
| `WaitQueue.SignalUsedOnce` | src/pth_sched.c:494-499 | a signal raised for a thread is used up by the round that finds an event which seeks it, and stays pending otherwise |
| `EventOutcomes.PendingSignalWakes` | src/pth_sched.c:489-514 | a signal that is pending for a thread wakes it when any of its events seeks it |
| `EventOutcomes.UnseenRound` | src/pth_sched.c:489-514 | a signal from 32 on changes nothing in a round except that it stays pending |
| `EventOutcomes.LastSignalUnseen` | src/pth_sched.c:489-514 | a round that leaves a thread waiting although the signal that it waits for, 32, is pending for it |
| `Passes.BarrierPassIsRound` | src/pth_sched.c:797-805 | every round is a legal pass of the barrier protocol |
| `Passes.MutexPassIsRound` | src/pth_sched.c:534-538 | every round is a legal pass of the mutex protocol: it marks exactly those waiters, of any mutex, whose wait is over, exactly those leave besides whose extra event has occurred, and exactly the others are still in the queue |
| `EventProperties.Multiplex` | src/pth_sched.c:466-745 | every descriptor event gets the result, the sets and the count that a select(2) of its own would have given, except that the signal pipe of the manager shows as not ready after a wait |
| `EventProperties.DelayIsSound` | src/pth_sched.c:596-602 | the delay is not negative and ends no later than any pending timer or function deadline |
| `EventProperties.DelayExactly` | src/pth_sched.c:586-602 | the delay is zero while polling, in a wait exactly the time to the first of all pending deadlines, and without a limit exactly when there is none |
| `EventProperties.NeverEarly` | src/pth_sched.c:516-528 | a timer that is over was past at the start of the round, or the wait has lasted as long as was asked for and its time is past then |
| `EventProperties.FirstDue` | src/pth_sched.c:516-575 | the manager waits for the deadline that is due first, and among equal ones for the first in the queue |
| `EventProperties.RepeatExactly` | src/pth_sched.c:643-656 | a round is repeated exactly when the wait has timed out and what was due first is an event function |
| `Partition.CountsThreads` | src/pth_lib.c:170-183 | the GETTHREADS count is what was spawned and is not freed |
| `Partition.SpawnKeeps` | src/pth_lib.c:325-328 | spawning keeps every thread in exactly one place |
| `Partition.SuspendKeeps` | src/pth_lib.c:538-560 | suspending keeps the invariant and puts the thread into the suspended queue |
| `Partition.ResumeKeeps` | src/pth_lib.c:563-583 | resuming never reaches its missing queue: the thread is alive and back in the queue that its state names |
| `Partition.CancelKeeps` | src/pth_cancel.c:54-105 | cancelling keeps the invariant in deferred and asynchronous mode |
| `Partition.AbortKeeps` | src/pth_cancel.c:108-130 | aborting keeps the invariant |
| `Partition.JoinKeeps` | src/pth_lib.c:485-497 | joining keeps the invariant and frees exactly one thread |
| `Partition.JoinCallKeeps` | src/pth_lib.c:471-497 | a call of join, for a given thread or any, keeps the invariant up to its return or its wait |
| `Partition.FavourKeeps` | src/pth_lib.c:506-521 | favouring keeps the invariant |
| `Partition.PlaceKeeps` | src/pth_sched.c:338-365 | putting the thread that ran away keeps every thread in exactly one place; where it goes, SwitchFacts.StopExactly and SwitchFacts.ExitExactly say |
| `SwitchFacts.StopExactly` | src/pth_sched.c:347-365 | a thread that yields is ready at its own priority behind exactly those who have aged to at least that; one that waits is in the waiting queue at its own priority, behind exactly those of at least that, with all events pending; the ready ones are one older |
| `SwitchFacts.ExitExactly` | src/pth_sched.c:335-345 | a joinable thread that exits is dead and in the dead queue, a detached one is freed; nothing happens to the others, except that the ready ones are one older |
| `Partition.RoundKeeps` | src/pth_sched.c:677-839 | a round of the event manager keeps the invariant |
| `SwitchFacts.WokenEnters` | src/pth_sched.c:832-838 | a woken thread enters the ready queue one above its own priority; one that is not woken stays in the waiting queue where it was |
| `SwitchFacts.WokenInOrder` | src/pth_sched.c:820-838 | of two threads that wake up in one round the one that waited in front is ready in front, unless the other has the higher priority |
| `Partition.DrainKeeps` | src/pth_sched.c:195-206 | all new threads move to the ready queue, none is lost |
| `SwitchFacts.FavouredStart` | src/pth_sched.c:195-203 | favoured new threads stand in front of all ready ones, in the order of the new queue, each one above the next |
| `SwitchFacts.PlainStart` | src/pth_sched.c:195-203 | other new threads become ready at the standard priority, the last of the new queue first |
| `Partition.ReschedKeeps` | src/pth_sched.c:190-380 | a whole turn of the scheduler loop keeps the invariant |
| `Partition.NeverAborts` | src/pth_sched.c:213-218 | under an honest select(2) the scheduler always has a thread to run |
| `SwitchFacts.RunsNext` | src/pth_sched.c:213-218 | the thread that is dispatched has nobody above it, the others stay ready as they were, and no thread is new any more |
| `SwitchFacts.MayFindNothing` | src/pth_sched.c:367-379 | finding nothing is a possible answer of the first select(2) of a switch exactly when a thread is ready or new, something has occurred or a timer runs |
| `SwitchFacts.BusyNeverSleeps` | src/pth_sched.c:367-379 | with a thread ready or new select(2) may find nothing whatever the others wait for, and a thread is dispatched then |
| `SwitchFacts.IdleSleeps` | src/pth_sched.c:367-379 | with nobody ready or new, nothing occurred and no timer, select(2) comes back only with something |
| `Runs.BootInv` | src/pth_lib.c:59-136 | the invariant holds when the main thread first runs |
| `Runs.StepKeeps` | src/pth_sched.c:190-380 | no step of any kind breaks the invariant or ends in the abort |
| `Runs.RunInvariant` | src/pth_sched.c:213-218 | the invariant holds in every state of every run, and no legal step from there aborts |
| `Runs.EveryRun` | src/pth_lib.c:59-136 | the same for every run from the start of the library on, along with the count of threads |
| `Suspension.StepState` | src/pth_lib.c:538-583 | no step changes the state of a suspended thread |
| `Suspension.SuspendResume` | src/pth_lib.c:538-583 | a thread resumed after any number of steps is back in the queue it was taken from, in the state it had |
| `Replies.WhereItIs` | src/pth_lib.c:538-583 | a thread that does not run is suspended or in the queue of its state, never both |
| `Replies.SuspendExactly` | src/pth_lib.c:538-560 | suspending fails with EPERM for the running thread and dead ones, with ESRCH for suspended ones, and succeeds for all others, which are then in the suspended queue with their state; a failure changes nothing |
| `Replies.ResumeExactly` | src/pth_lib.c:563-583 | resuming succeeds exactly for suspended threads; the thread is then in the queue of its state at the standard priority, behind exactly those of at least that, and no other queue has changed |
| `Replies.SpawnExactly` | src/pth_lib.c:249-328 | a new thread has the attributes it was given, no events, signals or requests, and is in the new queue behind exactly those of at least its priority |
| `Replies.AttrExactly` | src/pth_attr.c:119-195 | setting an attribute sets that one, for that thread |
| `Replies.CancelStateExactly` | src/pth_cancel.c:31-38 | the running thread sets its own cancel state and nothing else |
| `Replies.FavourExactly` | src/pth_lib.c:506-521 | a thread can be yielded to exactly when it is new or ready, and neither running nor suspended |
| `Replies.CancelExactly` | src/pth_cancel.c:54-105 | asynchronous cancellation ends the thread unless it is suspended, deferred cancellation only marks it |
| `Replies.AbortExactly` | src/pth_cancel.c:108-130 | abort fails with ESRCH exactly for suspended threads, with EPERM exactly for dead ones that are not joinable, and otherwise, and only then, the thread is gone |
| `Replies.SuspendedSurvives` | src/pth_cancel.c:54-130 | a run from the start of the library on after which a suspended thread can be neither aborted nor cancelled asynchronously |
| `Replies.DetachedSurvives` | src/pth_attr.c:168-180 | a run in which a thread is cancelled and then detached, after which it can be neither aborted nor joined |
| `Replies.JoinCallExactly` | src/pth_lib.c:471-497 | joining by name is refused for oneself and for detached threads, reaps a dead thread at once and waits for any other, which stays as it is |
| `Replies.JoinAnyExactly` | src/pth_lib.c:471-497 | joining any thread is refused to a thread that is alone, reaps the first dead thread at once if there is one, and waits for any if there is none |
| `Replies.JoinExactly` | src/pth_lib.c:485-497 | joining succeeds exactly for dead threads, frees that one and changes nothing else |
| `Exits.StepSpares` | src/pth_lib.c:489-497 | no step of any kind frees a dead thread or brings it back, except a join or an abort that takes exactly this one out |
| `Exits.DeadUntilJoined` | src/pth_sched.c:335-345 | along every run a joinable thread that has exited is dead and in the dead queue until a join or an abort has freed it |
| `Exits.JoinerWakes` | src/pth_sched.c:552-559 | who waits for the end of a dead thread, or of any, is out of the waiting queue after the next round |
| `Replies.RaiseExactly` | src/pth_lib.c:344-366 | raising a signal fails exactly for the running thread and for numbers out of range; it makes the signal pending for that thread unless ignored, and changes nothing else |
| `Fairness.SwitchPosition` | src/pth_sched.c:195-365 | the exact place and priority of a ready thread after a context switch |
| `Fairness.BoundedWaiting` | src/pth_sched.c:195-365 | a thread that stays ready is dispatched within max(0, B - p) + L dispatches, in every run whose insertions into the ready queue, favoured or not, are at B or below, whose ready queue holds at most L threads, and in which no directed yield lowers the priority of that thread |
| `Fairness.YieldToNew` | src/pth_lib.c:501-535 | with new threads favoured, a yield to a new thread runs it next whatever happens in between |
| `Fairness.YieldToReady` | src/pth_lib.c:501-535 | a yield to a ready thread runs it next exactly when nobody enters the ready queue above its aged priority |
| `Fairness.FavouringStarves` | src/pth_sched.c:198-201 | for every n there is a run from the start of the library on with n + 1 dispatches in which the main thread is ready all the time and is not dispatched again, since each dispatched thread spawns a favoured one |
| `Fairness.FavourCanLower` | src/pth_lib.c:506-521 | a run from the start of the library on after which a directed yield lowers a priority from 0 to -4 |
| `SchedulerLoop.FirstPass` | src/pth_sched.c:436-583 | the nested loops of the first pass compute what the pass means |
| `SchedulerLoop.DeliverRing` | src/pth_sched.c:682-815 | the late handling of one ring, and whether any of its events is not pending |
| `SchedulerLoop.Pth.SecondPass` | src/pth_sched.c:677-839 | the walk moves exactly the threads with a non-pending event or a cancel request, one above their priority, and stores every event |
| `SchedulerLoop.Pth.ManageOnce` | src/pth_sched.c:419-839 | both passes around one select(2) do one round |
| `SchedulerLoop.Pth.Manage` | src/pth_sched.c:392-849 | the event manager repeats rounds exactly as long as an event function has to be asked again |
| `SchedulerLoop.Pth.DrainNew` | src/pth_sched.c:195-206 | the loop over the tail of the new queue |
| `SchedulerLoop.Pth.PutAway` | src/pth_sched.c:335-365 | dead, waiting and yielding threads go to their queues, and the ready ones age |
| `SchedulerLoop.Pth.Turnaround` | src/pth_sched.c:190-380 | one turn of the scheduler loop does what a context switch means and keeps the invariant |
| `SchedulerLoop.Pth.Spawn` | src/pth_lib.c:325-328 | the queue part of spawning |
| `SchedulerLoop.Pth.Suspend` | src/pth_lib.c:538-560 | state and reply of suspending |
| `SchedulerLoop.Pth.Resume` | src/pth_lib.c:563-583 | state and reply of resuming |
| `SchedulerLoop.Pth.Cancel` | src/pth_cancel.c:54-105 | state and reply of cancelling |
| `SchedulerLoop.Pth.Abort` | src/pth_cancel.c:108-130 | state and reply of aborting |
| `SchedulerLoop.Pth.Join` | src/pth_lib.c:471-489 | state and outcome of joining, up to its return or its wait |
| `SchedulerLoop.Pth.Reap` | src/pth_lib.c:489-497 | state and reply of the part of joining behind the wait |
| `SchedulerLoop.Pth.SetAttr` | src/pth_attr.c:119-195 | setting the priority, joinability or cancel state of a thread changes nothing else |
| `SchedulerLoop.Pth.Raise` | src/pth_lib.c:344-366 | state and reply of raising a signal, up to the directed yield |
| `SchedulerLoop.Pth.FavourThread` | src/pth_lib.c:506-521 | state and reply of choosing a thread to yield to |
| `SchedulerLoop.Pth.Perform` | src/pth_sched.c:190-380 | any step of a run, done by the code, leads to the state that the run has next, keeps the invariant and never aborts |
| `Mutexes.AcquireKeeps` | src/pth_sync.c:45-82 | an acquisition succeeds at once exactly for an initialized mutex that is free or the caller's own, and adds one; it waits exactly when another holds it and it is not only tried, and each refusal has its own cause |
| `Mutexes.WakeKeeps` | src/pth_sync.c:84-102 | a woken waiter gives up exactly when only its extra event occurred, otherwise takes the mutex exactly when nobody holds it, and waits in the queue again exactly when somebody does |
| `Mutexes.ReleaseKeeps` | src/pth_sync.c:105-126 | a release works exactly for the thread that holds the mutex and takes one acquisition back; any other changes nothing and has its error |
| `Mutexes.StepKeeps` | src/pth_sync.c:45-126 | every step keeps: locked exactly when the count is positive, exactly when the mutex is once in its owner's ring and in no other |
| `Mutexes.HeldIsBalance` | src/pth_sync.c:45-126 | in every interleaving a thread holds what it acquired and did not release |
| `Mutexes.MutualExclusion` | src/pth_sync.c:45-126 | no two threads ever both hold a mutex |
| `Mutexes.OneOfTheMarked` | src/pth_sync.c:84-102 | of all waiters marked by a pass only one takes the mutex until it is released |
| `Mutexes.HandOver` | src/pth_sync.c:80-102 | a waiter whose mutex a pass finds free has it when it is woken, exactly when nobody holds it then, and always when nobody took it in between |
| `Mutexes.Contended` | src/pth_sync.c:80-126 | a run in which a thread waits for a mutex and has it after the owner has given it back |
| `Mutexes.ReleaseAllEffect` | src/pth_sync.c:128-143 | only the first mutex is released when that empties its count, otherwise every one once |
| `Mutexes.ReleaseAllEmpties` | src/pth_sync.c:128-143 | all mutexes are given back exactly when there is none, or one held once |
| `Mutexes.ReleaseAllForgets` | src/pth_sync.c:128-143 | of two mutexes held once each the second stays locked |
| `Mutexes.ForgottenLock` | src/pth_sync.c:128-143 | a run in which a thread takes two free mutexes, and its exit leaves one locked |
| `CondVars.AtMostOneEach` | src/pth_sync.c:252-325 | in every run plain notifications end no more waits than were sent, and the waiters counted are those inside a wait |
| `CondVars.AwaitRestores` | src/pth_sync.c:275-298 | a wait ends with the mutex held as often as when it began, however often that was |
| `CondVars.WakeKeeps` | src/pth_sync.c:286-298 | every wake-up keeps the counts, and one that ends the wait has the mutex back |
| `CondVars.WakeExactly` | src/pth_sync.c:286-298 | a woken thread is out of its call with the mutex, and no longer counted as a waiter, exactly when it can have the mutex; otherwise it waits for that and is still counted |
| `CondVars.AcquireExactly` | src/pth_sync.c:45-82 | an acquisition succeeds at once exactly when the thread can have the mutex |
| `CondVars.PassExactly` | src/pth_sched.c:534-551 | whom a pass marks: one waiter in the queue, all or none, those for the mutex exactly when it is free, and those with an extra event; the flags are cleared exactly when a waiter was marked |
| `CondVars.PlainWait` | src/pth_sync.c:252-325 | a run in which a thread waits, another notifies it and gives the mutex back, and the first returns with the mutex |
| `CondVars.StaleExactly` | src/pth_sync.c:266-321 | in every run a wait is ended by a notification sent before it began, on the spot or by a later pass, exactly when the last notification that did anything, plain or broadcast, found no thread in the waiting queue for the condition, no pass since has found one there, and no wait has begun since |
| `CondVars.SelfNotified` | src/pth_sync.c:266-273 | a run in which a thread ends its own later wait with a plain notification |
| `CondVars.SelfBroadcast` | src/pth_sync.c:266-273 | the same with a broadcast, which the next pass serves |
| `CondVars.ExtraLeft` | src/pth_sync.c:283-298 | a run in which the only waiter has left by its extra event, so that a single notification ends the next wait |
| `CondVars.SuspendedMisses` | src/pth_lib.c:538-560 | a run in which a suspended waiter misses the notification, which ends the next wait instead |
| `Barriers.StepKeeps` | src/pth_sync.c:346-381 | every step keeps the counts, the flag and the account of every generation |
| `Barriers.ReachExactly` | src/pth_sync.c:356-375 | a thread that reaches the barrier is counted exactly when nobody holds the mutex, and otherwise waits for that |
| `Barriers.WakeExactly` | src/pth_sync.c:373-381 | a woken thread with the mutex free is counted when it was on its way in, returns when the cycle has changed and waits on otherwise |
| `Barriers.ResumeExactly` | src/pth_sync.c:363-380 | the tail light gives the mutex back and returns |
| `Barriers.PassExactly` | src/pth_sched.c:534-551 | a pass marks all sleepers after a broadcast, and clears it, and all who wait for a free mutex |
| `Barriers.BarrierSafety` | src/pth_sync.c:346-381 | for any number of threads: nobody returns before all arrivals of its generation, each leaves once, one tail light per generation, never a head light |
| `Barriers.ArrivalsConserved` | src/pth_sync.c:352-358 | arrivals are generations times the threshold plus those of the current one |
| `BarrierExact.FlagSuffices` | src/pth_sync.c:355-375 | no thread of a completed generation goes back to waiting, in any interleaving with a pass whenever a thread stops inside a call, exactly when at most `threshold` threads take part or the threshold is 1 |
| `BarrierExact.Stranded` | src/pth_sync.c:372-375 | for every threshold from 2 on and one thread more there is such a run in which one does |
| `BarrierExact.PassMarksAll` | src/pth_sync.c:301-325 | with few enough threads no broadcast is lost: a pass marks everybody whose generation is complete |
| `RwLocks.RunSafeExactly` | src/pth_sync.c:160-223 | without nesting, writers overlap nobody exactly as long as no owner of the writers' mutex acquires for writing |
| `RwLocks.AcquireExactly` | src/pth_sync.c:160-191 | a writer gets the lock at once exactly when nobody has it, a reader exactly when no writer has it and no first reader is on its way in; otherwise it waits or, if it only tries, nothing has changed for it |
| `RwLocks.WakeExactly` | src/pth_sync.c:169-189 | the same for a thread that is woken; a reader becomes the first one when only a writer is in its way |
| `RwLocks.InterruptExactly` | src/pth_sync.c:171-185 | a wait that is given up leaves the counts and mutexes as if it had not begun |
| `RwLocks.WriterWaits` | src/pth_sync.c:160-223 | a run in which a writer waits for a reader and has the lock when the reader has left |
| `RwLocks.OverlapExactly` | src/pth_sync.c:169-174 | the one step that leads to an overlap |
| `RwLocks.RefusedExactly` | src/pth_sync.c:207-221 | a release is refused exactly to a last reader that did not enter first |
| `RwLocks.Refused` | src/pth_sync.c:207-221 | two readers leave in the order in which they came, and the second release is refused |
| `RwLocks.DisciplinedRun` | src/pth_sync.c:160-223 | when the first reader leaves last: no overlap, the mode names the holders, the number of readers is right and every release succeeds |
| `RwLocks.Overlap` | src/pth_sync.c:160-223 | two readers, the first of whom leaves and comes back to write |
| `SyncObjects.Locks.Perform` | src/pth_sync.c:45-126 | any step of the mutex protocol, done by the code on mutexes and rings, leads to the world that the run has next, with its report, and keeps the invariant |
| `SyncObjects.Locks.Acquire` | src/pth_sync.c:45-82 | the code of an acquisition up to its return or its wait |
| `SyncObjects.Locks.Wake` | src/pth_sync.c:84-102 | the wait loop from one return of the wait to the next |
| `SyncObjects.Locks.Release` | src/pth_sync.c:105-126 | the code of a release, with its refusals |
| `SyncObjects.CondObject.Perform` | src/pth_sync.c:252-325 | any step of the condition variable protocol, done by the code, leads to the state that the run has next and keeps the invariant |
| `SyncObjects.CondObject.Await` | src/pth_sync.c:265-283 | the code up to the first switch, with the short cut and the extra event |
| `SyncObjects.CondObject.Notify` | src/pth_sync.c:301-325 | the code up to the yield |
| `SyncObjects.CondObject.Wake` | src/pth_sync.c:286-298 | the code from a wake-up to the next switch or the return |
| `SyncObjects.BarrierObject.Perform` | src/pth_sync.c:346-381 | any step of the barrier protocol, done by the code, leads to the state that the run has next and keeps the invariant |
| `SyncObjects.BarrierObject.Reach` | src/pth_sync.c:346-381 | the code up to the first switch is the arrival step |
| `SyncObjects.BarrierObject.Wake` | src/pth_sync.c:372-375 | the code from a wake-up to the next switch is the recheck step |
| `SyncObjects.RwLockObject.Perform` | src/pth_sync.c:160-223 | any step of the read-write lock, done by the code, leads to the state that the run has next; the lock is safe after it exactly when no owner of the writers' mutex acquired for writing |
| `SyncObjects.RwLockObject.Acquire` | src/pth_sync.c:160-191 | the code of an acquisition up to the first switch |
| `SyncObjects.RwLockObject.Release` | src/pth_sync.c:193-223 | the code of a release up to the first switch |
| `Rings.Ring.InsertAfter` | src/pth_ring.c:97-107 | the sequence with the new node behind the given one |
| `Rings.Ring.InsertBefore` | src/pth_ring.c:110-120 | the sequence with the new node in front of the given one, or at the end when that is the first |
| `Rings.Ring.Delete` | src/pth_ring.c:123-137 | the sequence without the node |
| `Rings.Ring.Prepend` | src/pth_ring.c:140-158 | the sequence with the node in front |
| `Rings.Ring.Append` | src/pth_ring.c:161-178 | the sequence with the node at the end |
| `Rings.Ring.Pop` | src/pth_ring.c:187-195 | returns and removes the first node |
| `Rings.Ring.Dequeue` | src/pth_ring.c:220-228 | returns and removes the last node |
| `Rings.Ring.Favorite` | src/pth_ring.c:198-211 | moves a node to the front and keeps the others in order |
| `Rings.Ring.Contains` | src/pth_ring.c:231-250 | true exactly for nodes of the ring |
| `Rings.Ring.Last` | src/pth_ring.c:72-76 | the last node of the sequence |
| `Rings.Ring.Next` | src/pth_ring.c:78-82 | the next node, null behind the last one |
| `Rings.Ring.Prev` | src/pth_ring.c:84-88 | the previous node, null before the first one |
| `Messages.Put` | src/pth_msg.c:121-127 | appends to that port, changes no other, and a message stays on at most one port |
| `Messages.Get` | src/pth_msg.c:130-138 | takes the oldest message off that port |
| `Messages.Reply` | src/pth_msg.c:141-146 | appends to the reply port, or refuses |
| `Messages.Drain` | src/pth_msg.c:75-77 | every pending message ends up on its reply port, in order |
| `Messages.Fifo` | src/pth_msg.c:121-138 | over every history, what came out and what is left is what was there and what was put |
| `Messages.Replay` | src/pth_msg.c:121-138 | after any possible sequence of puts and gets on any ports of the heap, each port holds and has handed out what a queue of its own would |
| `Messages.DrainTerminates` | src/pth_msg.c:67-86 | destroying a port ends exactly when no pending message replies to that port |
| `Messages.SelfReply` | src/pth_msg.c:67-86 | a port whose only message replies to it still holds that message after any number of turns of the loop |
| `EventRings.Concat` | src/pth_event.c:289-319 | the argument rings are spliced in order behind the first event, into one ring |
| `EventRings.Isolate` | src/pth_event.c:322-337 | the event is a ring of its own, the rest is a ring from the next event on |
| `EventRings.ConcatIsolate` | src/pth_sync.c:83-91 | concatenating one event with a ring and isolating it restores every link of both |
| `EventRings.ChainIn` | src/pth_event.c:104-110 | a chained event is the last of the ring it is put in front of |
| `EventRings.MarkPending` | src/pth_event.c:398-404 | every event of the ring is pending again |
| `EventRings.CountNonPending` | src/pth_event.c:419-429 | the number of events that are not pending |
| `EventRings.NonPendingSome` | src/pth_event.c:388-434 | that number is positive exactly when some event is not pending |
| `FdSets.Merge` | src/pth_util.c:106-125 | the outputs gain exactly what the inputs hold below nfd |
| `FdSets.Test` | src/pth_util.c:128-147 | true exactly when the three intersections together are not empty |
| `FdSets.Select` | src/pth_util.c:154-184 | the inputs keep exactly what occurred below nfd, and the count is the sum of the three intersections |
| `Writev.IovBytes` | src/pth_high.c:1140-1152 | the number of bytes that a vector stands for |
| `Writev.Advance` | src/pth_high.c:1155-1191 | the advanced vector stands for exactly the remaining bytes |
| `Writev.WritevLoop` | src/pth_high.c:1050-1115 | the bytes sent are the prefix whose length the kernel's answers add up to, and the rest shrinks on every repeat |
| `Writev.WritevEv` | src/pth_high.c:1027-1115 | an empty or oversized vector is refused before anything is sent |
| `Writev.ScratchSuffices` | src/pth_high.c:1039-1048 | the scratch vector has room for the whole vector exactly for at most 32 and for more than 512 entries |
| `Writev.ResultExact` | src/pth_high.c:1069-1108 | -1 comes exactly from an interruption or from a first write that fails; bytes are lost to the caller exactly when the first write took some but not all and an interruption follows, and never without one |
| `Writev.LostCount` | src/pth_high.c:1069-1077 | a byte is sent and -1 returned |
| `Format.DigitsDecode` | src/pth_string.c:423-432 | the digits read back as the magnitude modulo base^19, so exactly below that bound as the magnitude |
| `Format.TopDigitLost` | src/pth_string.c:423-432 | ten to the nineteenth prints as zero |
| `Format.NoLeadingZero` | src/pth_string.c:423-432 | digits that are right have no leading zero |
| `Format.FieldWidth` | src/pth_string.c:434-446 | the width is honoured except exactly with zero padding, a precision beyond the digits and a width beyond the precision |
| `Format.FieldShape` | src/pth_string.c:410-469 | the number is at the right end of the field, or at the left one with the minus flag; zeros replace the spaces with the zero flag and else fill up to the precision; the sign is as the flags ask |
| `Format.LetterCase` | src/pth_string.c:419-426 | letters are large or small as asked for |
| `Format.NarrowField` | src/pth_string.c:434-446 | the number 1 with width 5, precision 3 and zero padding takes three characters |
| `FormatReadback.ReadBack` | src/pth_string.c:389-471 | for all flags, widths and precisions the field reads back as the sign and the absolute value of a signed number, or as an unsigned number of 64 bits, modulo base^19 |
| `Format.Out.FmtInt` | src/pth_string.c:389-471 | the code emits spaces, sign, zeros, digits and spaces as laid out |
| `Format.Out.Outch` | src/pth_string.c:627-640 | the character counts even when it does not fit |
| `Format.Out.Terminate` | src/pth_string.c:341-345 | the stored text is a NUL-terminated prefix of the output; without a buffer and a size the length of the whole output is returned |

## Left out

- Machine contexts, stacks and the assembly: a switch is an atomic hand-over to the scheduler.
- Argument checks of barriers, read-write locks and condition variables that are NULL or not initialized, and of thresholds below one.
- Real signals: masks, handlers and which of several raised signals is reported are not modelled; a set of caught and raised signals is, and whether the process ignores a signal is a parameter of raising it.
- The select-error recheck of file descriptors and the error results of select(2) and sigaction(2).
- The main thread's special exit (it waits for all others, then ends the process), `pth_kill`, `pth_scheduler_drop` and the load average.
- Attributes other than priority, joinability and cancel state, and attribute objects that are not bound to a thread; cleanup handlers, thread-specific data, `pth_once`, `pth_atfork`, `pth_msgport_find`: they would only add easy members.
- Memory that is used after a thread was freed: callers are taken to name threads that exist.
- Cancellation of a thread that waits inside a mutex, condition, barrier or read-write lock call: only its queue transition is modelled.
- `pth_write_ev`, `pth_read_ev` and the other wrappers around system calls: the gather-write loop covers the partial writes.
- Floating-point, string and character conversions of the formatter, and how it parses a format.
- The POSIX threads layer of `src/pthread.c`.
- PriorityQueue.PQueue.Delete: taken to be called for a queued thread or on an empty queue, as every caller in the library does; the links of any other thread are not the queue's to change.
- Messages.Drain: asks that no pending message replies to the port itself, since the loop does not end otherwise; Messages.DrainTerminates says that this is exactly when it ends.
- EventProperties.DelayIsSound: for clocks and timers within one window of 2^31 seconds, so that comparisons do not wrap.
- EventProperties.DelayExactly: in the same window.
- EventProperties.NeverEarly: in the same window.
- EventProperties.FirstDue: in the same window and for times with less than a second in the microseconds, since ties between others are not seen by the comparison.
- RwLocks.AcquireExactly: not for the owner of the writers' mutex that acquires for writing; RwLocks.OverlapExactly says what that leads to.
- Fairness.BoundedWaiting: for runs in which no directed yield lowers the priority of the thread itself (PriorityFacts.FavoriteLowers says exactly when one would); Fairness.FavouringStarves shows that the cap B is needed.
- FdSets.Select: takes the sets of one call to be different arrays, as callers of select(2) must.
- Writev.WritevEv: takes a scratch vector at least as long as the vector itself; Writev.ScratchSuffices says exactly when the library provides one.
- Format.Out.Terminate: a buffer has a size of at least one byte, and the output is shorter than the largest size.
- Runs.RunInvariant: a join that has to wait is the call, a wait step for the thread event and the reaping step; that the three belong to one call is not recorded.
- PriorityQueue.PQueue.Favorite: taken to be called for a queued thread or on an empty queue, as every caller in the library does.
- SyncObjects.CondObject.Perform: the mutex of a condition variable, as those of a barrier and a read-write lock, is one object without the rings of its owners; SyncObjects.Locks.Perform has the rings.
- CondVars.StaleExactly: for runs in which a pass of the event manager follows whenever a thread stops running inside a call, as all runs of the scheduler do (CondRuns.EveryRunIsProtocol).
- CondRuns.EveryRunIsProtocol: for one condition variable with one mutex; threads inside a wait are not cancelled or aborted, and a thread to be cancelled does not begin to wait.
- BarrierExact.PassMarksAll: for threads that are not suspended inside the barrier; a suspended one is not in the waiting queue when the pass comes.
