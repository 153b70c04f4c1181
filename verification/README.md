# A verified model of the threads library's synchronisation core

The library lets any number of threads wait for completions. Each waiter owns a *sync*: a counter that
updates bring down to 0, a status, a lock and a condition. Pending syncs sit on a circular doubly linked
ring. The waiter whose sync heads the ring is the *progress manager*; when it leaves, it hands its duties
to the next one. The project models this protocol action by action, and five smaller protocols that
support it, and proves what holds in every reachable state and over every run. All results are for any
number of threads and any interleaving.

`dafny verify dfyconfig.toml` checks the whole project.

## The modules

| module | what it models |
|---|---|
| `SyncRing` | the ring on the heap: `next`/`prev`, the head pointer, the global wakeup's traversal loop |
| `WaitSyncModel` | the wait-sync protocol as a state machine, one step per atomic action, with the line each program point stands for |
| `WaitSyncFlow` | the control-flow graph of the wait and what a step leaves alone |
| `WaitSyncLocks` | invariant: mutual exclusion of both lock levels, ring membership, the in-progress counter |
| `WaitSyncManager` | invariant: ring order, and the head's waiter is awake or about to be signalled |
| `WaitSyncCompletion` | invariant: ledger of updates, returned outcomes, no lost completion |
| `WaitSyncRelease` | invariant: one signal per sync while callers keep to its budget |
| `WaitSyncOpen` | when a released sync may still be touched, and which calls the release waits for |
| `WaitSyncSweep` | invariant: what lies behind the traversal of a global wakeup |
| `WaitSyncTheorems` | the results for every reachable state and run |
| `WaitSyncCalls` | runs with their labels: what a call asks for is what happens, and every call can be finished |
| `WaitSyncDrain` | termination: a variant function, absence of stuck states, the final state |
| `WaitSyncService` | a completed waiter returns with the help of lock holders and open updates alone |
| `WaitSyncWitness`, `WaitSyncWakeup` | runs that reach the situations in which the code falls short |
| `WaitSyncLimit` | what `max_thread_in_progress` limits and what it does not |
| `QthreadsQueue`, `QthreadsCond` | the Qthreads condition variable: its waiter queue on the heap, and its protocol refining the abstract condition variable |
| `QthreadsReturn` | a woken waiter returns; what wait, signal and broadcast calls do, by their labels |
| `CondBridge` | the wait-sync model's sleeps, wakeups and returns are those of the abstract condition variable |
| `TrackedKey`, `TrackedKeyProtocol` | tracked thread-specific data: one operation at a time on the heap, and interleaved |
| `TrackedKeyTraces` | what gets return, what the destructor receives, and that operations end, by the labels of the calls |
| `CounterCondition`, `CounterService` | `condition_t` and the `ACQUIRE_THREAD`/`RELEASE_THREAD` macros: tokens and door, and what they are good for |
| `Doubles`, `NanosleepSplit` | rounding to doubles, and the seconds/nanoseconds split of a 64-bit value |
| `SelfKey` | double-checked creation of the Qthreads self key |

In the state machines the transition functions (`RunWait`, `RunFrame`, `Exec`, `Apply`) are the model of the
code, and the lemmas are about runs of them. A *trace* is a run together with the label of each step, which
says what a caller asked for: a result about a call speaks of the amount, code, value or deadline in its
label, not of what the model made of it. `Log`, `arrivals`, `gone`, `orderly` and `past` are history: no step
reads them. `HistoryIsTrue` and `BudgetIsTrue` say by the steps and labels of a trace what the wait-sync
history means.

## What the wait-sync model assumes

- Memory is sequentially consistent; `THREAD_ADD_FETCH32` and `atomic_swap_32` are single steps.
- `using_threads()` is true throughout, so the `_mt` code runs.
- A number stands for one sync and the one wait on it. A thread that waits again is a further number.
- `SUCCESS` is 0 and every other status is an error.
- `progress()` is the environment: while a wait is inside it, updates and global wakeups may be started
  and run as nested calls. Updates and wakeups may also come from threads that are not waiting.
- `cond_wait` releases the lock and sleeps in one step, and may wake spuriously.
- The pointer writes under `wait_sync_lock` form one step of the protocol. `SyncRing` proves that they
  compute the sequence operation used there, and `RingCallsAreLegal` that they are called as required.
  The read of the head at line 82, made without that lock, is its own step.
- Counts are unbounded integers. While a sync is within its budget `ExactlyOneSignal` keeps its count
  between 0 and its initial value, so no 32-bit count wraps there.
- An update of a sync that its owner has already released acts on whatever the memory holds. The model
  lets it happen; `ReleasedIsUntouched` says when it cannot.

Five words describe how callers behave towards a sync. Its updates are *steady* if no success update is
negative. One of them *leaps* if it takes the count from above 0 to below 0. They are *regular* if they are
steady and none exceeds the count before an error update. A sync is *tame*, or within budget, while callers
only issue positive success updates of at most the initial count in total and no global wakeup visits it.
Callers are *orderly* if every call that leaves the budget, of whatever kind, is issued while no other call on
the sync is open and its `signaling` mark is set.

## What was found out

- Overshooting past 0 does not signal. `OvershootLosesCompletion` shows that a sleeper with a positive count
  and no signal under way is left complete and unsignalled iff the update exceeds its count, and
  `OvershootHappens` gives a run for every such count and update. The sleeper still
  returns if everybody completes and nothing new starts (`MaximalDrainIsDone` needs no condition on the updates).
- The comment in `wait_sync.h` says that a global wakeup with success is a no-op. That holds exactly while it
  meets no count of 0 (`SuccessWakeupIsNoOp`). A member whose count is 0 is signalled (`ZeroVisitSignals`), and
  its `signaling` mark is cleared before the traversal goes on (`SignallerClears`). This happens
  (`ZeroVisitHappens`) and does harm: one update that fits the count and one wakeup with success suffice for a
  release that overtakes the updater (`SuccessWakeupHarms`).
- A sync initialised with a negative count starts with `signaling` true. Within budget nothing clears it, so
  `WAIT_SYNC_RELEASE` does not get past its spin loop (`ReleaseEnabledIff`, `NegativeCountHappens`).
- `num_thread_in_progress` stays within `max_thread_in_progress` iff the limit is at least the number of
  threads (`BoundKeptIff`): the test at line 82 of `wait_sync.c` and the increment at line 100 are separate.
- A released sync can still be touched iff a call on it is open (`ReleasedTouchedIff`), so a release does harm
  iff it overtakes an open call (`ReleaseOvertakesIff`). The spin loop prevents that for orderly callers
  (`ReleasedIsUntouched`, `LastCallIsSafe`). It does not for two error updates at a time
  (`UnsafeReleaseHappens`), nor for any call on a returned sync whose mark is cleared
  (`UnmarkedCallIsOvertaken`).
- The nanosecond split is exact for every value up to 9007199999999998, which is beyond 2^53, and fails for
  9007199999999999 under the usual rounding of ties to even (`FirstFailure`). `SplitExactIff` says for every
  64-bit value when it is exact.
- The time comparison in `condition_timedwait` tests `tv_sec <=` first, so the microseconds of the deadline
  never end a wait (`DeadlineTestIff`), and a wait may overrun its deadline by up to a second
  (`DeadlineOverrun`).

## Model

| member | source | states |
|---|---|---|
| `SyncRing.WaitSync.constructor` | src/wait_sync.h:78-89 | a new sync has the given count, status 0, no neighbours, and is marked as being signalled iff its count is not 0 |
| `SyncRing.WaitSync.Update` | src/wait_sync.h:108-121 | one update run alone: signals iff it is an error or brings the count to exactly 0; count, status and the signalling mark afterwards in every case |
| `SyncRing.SyncList.Insert` | src/impl/base/wait_sync.c:63-73 | the four pointer writes turn the ring of a sequence into the ring of that sequence with the newcomer at the end, head unchanged unless the ring was empty |
| `SyncRing.SyncList.Unlink` | src/impl/base/wait_sync.c:110-111 | the two pointer writes close the gap: what is left is one ring in the old order |
| `SyncRing.SyncList.Trim` | src/impl/base/wait_sync.c:109-117 | removal from any position keeps one ring in order and NULL iff empty; the next oldest is promoted iff the head left and somebody remains |
| `SyncRing.CloseGap` | src/impl/base/wait_sync.c:110-111 | if everybody's pointers are as before except that the neighbours of one member skip it, the rest form one circular doubly linked ring |
| `SyncRing.SyncList.GlobalWakeup` | src/impl/base/wait_sync.c:14-30 | the traversal loop ends after one full turn, having updated every ring member exactly once in ring order, and leaves the ring alone |
| `WaitSyncLocks.StepKeepsStructure` | src/impl/base/wait_sync.c:14-122 | every step keeps: each lock is held by t exactly when t is inside a critical section of it, the ring holds exactly the waits between linking and unlinking, and the in-progress counter counts the waits in their loops |
| `WaitSyncManager.StepKeepsOrder` | src/impl/base/wait_sync.c:63-73 | every step keeps the ring equal to the linked and not yet unlinked syncs in order of linking |
| `Base.RemainingAppend` | src/impl/base/wait_sync.c:68-71 | linking adds at the end of that order |
| `Base.RemainingRemove` | src/impl/base/wait_sync.c:110-111 | unlinking removes one sync and keeps the order of the others |
| `WaitSyncManager.StepKeepsManager` | src/impl/base/wait_sync.c:81-119 | every step keeps: a head whose waiter took itself for a non-head, or sleeps, is about to be signalled by the holder of the list lock |
| `WaitSyncManager.PassKeepsManager` | src/impl/base/wait_sync.c:34-39 | the promoter signals while holding the new head's lock, so the signal is heard and no head is left stale |
| `WaitSyncCompletion.StepKeepsData` | src/wait_sync.h:108-121 | every step keeps the ledger (count = initial - applied until an error), the outcome rules and the promise of a signal for every completed sleeper |
| `WaitSyncCompletion.SignalCondKeepsData` | src/wait_sync.h:50-56 | using up a pending signal leaves no completed waiter asleep, because the signaller holds the waiter's lock |
| `WaitSyncRelease.StepKeepsTame` | src/wait_sync.h:50-56 | every step keeps, for each sync within budget: issued = applied + outstanding, at most one signaller, and the signalling mark is false only after the one signaller is through |
| `WaitSyncCalls.CountFollowsCalls` | src/wait_sync.h:108-113 | over any trace from the initialisation with count c on, as long as no error update swaps it: the count is c less the total of the success updates in the labels, whoever issued them and from wherever, except for those still open |
| `WaitSyncCalls.QuietCount` | src/wait_sync.h:108-113 | with no call open the count is exactly c less that total |
| `WaitSyncCalls.UpdateWorks` | src/impl/base/wait_sync.c:101-103 | from every reachable state any free thread, one inside `progress()` say, can issue an update and run it to its end, and the count then accounts for its amount |
| `WaitSyncCalls.BudgetIsTrue` | src/wait_sync.h:108-121 | a sync is within budget iff the labels since its initialisation only issue positive success updates of at most the initial count in total and no traversal visits it |
| `WaitSyncCalls.HistoryIsTrue` | src/wait_sync.h:108-121 | a sync counts as failed, leapt, unsteady or irregular iff a step of the trace since its initialisation made it so |
| `WaitSyncCalls.CompleteNeverWaits` | src/impl/base/wait_sync.c:47-49 | a wait on a sync that is complete from the start, and not raised, never takes a lock or joins the ring |
| `WaitSyncRelease.BudgetAdd` | src/wait_sync.h:110-113 | within budget an outstanding update never exceeds the count, so it cannot overshoot |
| `WaitSyncRelease.TameAdd` | src/wait_sync.h:110-120 | the update that brings the count to 0 becomes the only signaller |
| `WaitSyncRelease.TameClear` | src/wait_sync.h:55 | clearing the mark is the last use of the sync by any update |
| `WaitSyncSweep.StepKeepsSweep` | src/impl/base/wait_sync.c:14-30 | every step keeps: behind the traversal of an error wakeup each ring member is failed and its waiter has no signal left to wait for |
| `WaitSyncSweep.SignalCondSweeps` | src/wait_sync.h:52-54 | signalling a visited member leaves its waiter awake, whatever it was doing |
| `WaitSyncTheorems.StepInv` | src/impl/base/wait_sync.c:14-122 | every step of every thread keeps the conjunction of the six invariants above |
| `WaitSyncTheorems.ReachableInv` | src/impl/base/wait_sync.c:14-122 | the invariants hold in every reachable state |
| `WaitSyncTheorems.LockOrder` | src/impl/base/wait_sync.c:14-119 | the holder of the list lock waits for nothing but a ring member's lock; the holder of a ring member's lock waits for nothing |
| `WaitSyncTheorems.ChainEnds` | src/impl/base/wait_sync.c:34-119 | under the structural invariant every chain of lock waits ends within three hops at a thread that can run |
| `WaitSyncTheorems.DeadlockFree` | src/impl/base/wait_sync.c:14-119 | the same in every reachable state, although the two lock levels are taken in both orders |
| `WaitSyncTheorems.RingIsFifo` | src/impl/base/wait_sync.c:63-119 | in every reachable state the ring is the pending syncs in order of insertion, each once, and membership is exactly being between insertion and removal |
| `WaitSyncTheorems.RingCallsAreLegal` | src/impl/base/wait_sync.c:63-111 | nothing is inserted twice and only ring members are removed |
| `WaitSyncTheorems.ManagerNotStranded` | src/impl/base/wait_sync.c:81-118 | if the head's waiter sleeps, another thread holds the list lock and is about to signal it |
| `WaitSyncTheorems.NoLostCompletion` | src/impl/base/wait_sync.c:52-97 | unless an update leapt over 0, a sleeper whose count is at most 0 always has an updater that has changed the count and not signalled yet |
| `WaitSyncTheorems.OvershootLosesCompletion` | src/wait_sync.h:110-113 | an update leaves a sleeper with a positive count complete and unsignalled iff it exceeds that count |
| `WaitSyncWitness.OvershootHappens` | src/wait_sync.h:110-113 | for every positive count and every larger update a run reaches a state with that sleeper complete, asleep and with no signal to come |
| `WaitSyncWitness.Extend` | src/impl/base/wait_sync.c:41-122 | a step from a reachable state leads to a reachable state |
| `WaitSyncWitness.Arrives` | src/impl/base/wait_sync.c:47-82 | from every reachable state with the list lock free a new waiter can get onto the end of the ring |
| `WaitSyncWitness.Sleeps` | src/impl/base/wait_sync.c:82-83 | from there it can fall asleep if it is not the head and the progress loop is full |
| `WaitSyncWitness.Proceeds` | src/impl/base/wait_sync.c:82-98 | from there it can leave the test if it is the head or the loop has room |
| `WaitSyncTheorems.OutcomeIsJustified` | src/impl/base/wait_sync.c:121 | with regular updates success is returned only after updates totalling the initial count; with steady ones a wait ended by an error update returns an error, on all three return paths |
| `WaitSyncTheorems.ErrorIsReported` | src/wait_sync.h:114-119 | over any run, once an error update has zeroed a sync whose wait has not returned, that wait can only return an error |
| `WaitSyncTheorems.GlobalWakeupReachesAll` | src/impl/base/wait_sync.c:14-30 | when an error wakeup is about to release the list lock, every ring member has a non-zero status and is bound to return an error and, with steady updates, is complete and not asleep |
| `WaitSyncCalls.ErrorWakeupReaches` | src/impl/base/wait_sync.c:14-30 | the same from the label: when a wakeup called with a non-zero code returns, every sync on the ring at its end is failed in this way |
| `WaitSyncCalls.ErrorWakeupStamps` | src/impl/base/wait_sync.c:24 | its status is the code of the call, unless another error update wrote it meanwhile |
| `WaitSyncCalls.ErrorWakeupWorks` | src/impl/base/wait_sync.c:14-30 | from every reachable state with a free thread and the list lock free, such a call can be run to its end and then has failed every sync that was on the ring |
| `WaitSyncCalls.ErrorUpdateReaches` | src/wait_sync.h:114-119 | when an update called with a non-zero code returns, the sync is failed, its wait can only return an error unless it has ended, and its status is that code unless another error update wrote it |
| `WaitSyncCalls.FinishCall` | src/impl/base/wait_sync.c:14-39 | every open update or wakeup can be run to its end by actions of lock holders and open calls alone |
| `WaitSyncTheorems.SuccessWakeupIsNoOp` | src/wait_sync.h:91-100 | over a whole success wakeup, whatever other threads do meanwhile: as long as none of its updates met a count of 0 it signals nobody, and none of its actions changes a field of any sync, a wait, the ring or the counter |
| `WaitSyncCalls.SuccessCallIsNoOp` | src/wait_sync.h:91-100 | the same from the label of a wakeup called with status 0 |
| `WaitSyncTheorems.ZeroVisitSignals` | src/wait_sync.h:110-120 | the first of its updates that meets a count of 0 goes on to signal |
| `WaitSyncTheorems.SignallerClears` | src/wait_sync.h:50-56 | over any run, when a thread on the signal path leaves the sync its mark has just been cleared, and a traversal goes on with the next member |
| `WaitSyncWakeup.ZeroVisitHappens` | src/impl/base/wait_sync.c:14-30 | a run in which a success wakeup is about to meet a count that an update has just brought to 0 |
| `WaitSyncWakeup.SuccessWakeupHarms` | src/wait_sync.h:32-56 | that run goes on to a release of the sync while the updater has yet to signal it |
| `WaitSyncTheorems.TouchesSound` | src/impl/base/wait_sync.c:34-119 | an action changes nothing of a sync outside the set it may touch and wakes nobody outside it |
| `WaitSyncTheorems.TouchesBlind` | src/impl/base/wait_sync.c:34-119 | nor does it read one: with arbitrary other values in that sync's fields the same action is possible and has the same effect |
| `WaitSyncOpen.ReleasedIsUntouched` | src/wait_sync.h:32-56 | no next action of any thread may touch a released sync whose callers were orderly, and its lock is free |
| `WaitSyncOpen.TameIsOrderly` | src/wait_sync.h:108-121 | callers that keep to the budget are orderly |
| `WaitSyncOpen.ReleasedTouchedIff` | src/wait_sync.h:32-56 | whatever the callers did, some thread can touch a released sync iff a call on it is open |
| `WaitSyncOpen.ReleaseOvertakesIff` | src/wait_sync.h:32-42 | after a release the sync can be touched iff a call was open when it was released |
| `WaitSyncOpen.ClosedReleaseIsFinal` | src/wait_sync.h:32-42 | over any run a sync released with no open call, on which no update is issued later, is never touched again |
| `WaitSyncOpen.StepKeepsOrderly` | src/wait_sync.h:50-56 | every step keeps, for orderly callers outside the budget: at most one call is open and the mark is set while it is |
| `WaitSyncOpen.LastCallIsSafe` | src/wait_sync.h:114-120 | over any run, after one more call of any kind opened alone and with the mark set, and none after it, the released sync is untouched |
| `WaitSyncOpen.UnmarkedCallIsOvertaken` | src/wait_sync.h:32-42 | from every reachable state, a call on a returned sync whose mark is cleared can be overtaken by the release |
| `WaitSyncOpen.ReleaseIsForever` | src/wait_sync.h:32-42 | over any run a released sync stays released and, with orderly callers, untouched |
| `WaitSyncWitness.UnsafeReleaseHappens` | src/wait_sync.h:32-56 | for any two error codes a run releases a sync after the first of two error updates has cleared the mark, while the second is about to touch it |
| `WaitSyncTheorems.ExactlyOneSignal` | src/wait_sync.h:108-121 | within budget the count stays between 0 and its initial value, exactly one update has signalled once it is 0, and at most one thread is signalling |
| `WaitSyncTheorems.ReleaseEnabledIff` | src/wait_sync.h:32-42 | within budget, once the wait has returned, the spin loop of the release ends iff no signaller is left and the initial count was not negative |
| `WaitSyncWitness.NegativeCountHappens` | src/wait_sync.h:32-42 | for every negative initial count a run returns success within budget to a release that stays in its spin loop |
| `WaitSyncDrain.DrainStarts` | src/impl/base/wait_sync.c:41-122 | draining starts in every reachable state whose counts are at most 0 with no negative update under way |
| `WaitSyncDrain.StepKeepsDraining` | src/impl/base/wait_sync.c:41-122 | a step that starts no wait, update or wakeup keeps the state draining |
| `WaitSyncDrain.DrainLowers` | src/impl/base/wait_sync.c:41-122 | every such step, spurious wakeups included, lowers a non-negative measure |
| `WaitSyncDrain.DrainIsLive` | src/impl/base/wait_sync.c:81-119 | an unfinished draining state has a thread that can run, without help from spurious wakeups |
| `WaitSyncDrain.DoneIsClean` | src/impl/base/wait_sync.c:105-119 | when all threads are done the ring is empty, the in-progress counter is 0 and every lock is free |
| `WaitSyncDrain.DrainBounded` | src/impl/base/wait_sync.c:41-122 | a draining run has at most as many steps as the measure of its first state |
| `WaitSyncDrain.MaximalDrainIsDone` | src/impl/base/wait_sync.c:41-122 | a draining run that cannot be extended has returned every waiter and left everything clean |
| `WaitSyncDrain.DrainFinishes` | src/impl/base/wait_sync.c:41-122 | from every draining state some run finishes |
| `WaitSyncService.CompletedReturns` | src/impl/base/wait_sync.c:41-122 | from every reachable state a started waiter with a count of at most 0, awake or with no update having leapt over its 0, returns by actions of itself, of lock holders and of open updates and wakeups alone; nobody else needs to complete or move |
| `WaitSyncService.WakeupReturnsError` | src/impl/base/wait_sync.c:14-30 | every ring member with steady updates, at the end of an error wakeup, can be returned in this way, and returns an error |
| `WaitSyncService.MaximalHelpReturns` | src/impl/base/wait_sync.c:41-122 | every run of such actions that cannot be extended has returned the waiter, within a bound on its length |
| `WaitSyncService.HelpBounded` | src/impl/base/wait_sync.c:41-122 | each such action lowers a measure of what stands between the waiter and its return, and keeps it served |
| `WaitSyncService.FollowHelps` | src/impl/base/wait_sync.c:34-119 | everybody along a chain of lock waits that starts at a helper is a helper |
| `WaitSyncLimit.RoomForAll` | src/impl/base/wait_sync.c:82-83 | if the limit is at least the number of threads, no waiter ever goes to sleep |
| `WaitSyncLimit.RoomForNone` | src/impl/base/wait_sync.c:82-105 | if the limit is 0 or less, only the head of the ring is ever in the progress loop |
| `WaitSyncLimit.BoundKeptIff` | src/impl/base/wait_sync.c:82-100 | the number of threads in progress stays within the limit in every reachable state iff the limit is at least the number of threads |
| `WaitSyncLimit.BoundExceeded` | src/impl/base/wait_sync.c:82-100 | below that a run exceeds it: all of them pass the test before any counts itself in |
| `QthreadsQueue.CondVar.constructor` | src/impl/qthreads/threads_qthreads_mutex.h:96-101 | a new condition has no waiters |
| `QthreadsQueue.CondVar.Enqueue` | src/impl/qthreads/threads_qthreads_mutex.h:108-116 | following the pointers from tail to head gives the old queue and then the new waiter |
| `QthreadsQueue.CondVar.Signal` | src/impl/qthreads/threads_qthreads_mutex.h:146-158 | exactly the oldest waiter is marked and removed; nothing happens on an empty queue |
| `QthreadsQueue.CondVar.Broadcast` | src/impl/qthreads/threads_qthreads_mutex.h:132-144 | the loop ends with every waiter marked and the queue empty |
| `QthreadsQueue.ChainedTail` | src/impl/qthreads/threads_qthreads_mutex.h:150 | behind the oldest waiter the rest of the queue is again a chain, starting at its link |
| `QthreadsCond.StepInv` | src/impl/qthreads/threads_qthreads_mutex.h:103-158 | every step keeps the queue equal to the unsignalled waiters inside `cond_wait`, each once, so no queued pointer outlives its waiter |
| `QthreadsCond.Refines` | src/impl/qthreads/threads_qthreads_mutex.h:103-158 | every step is a step of an abstract condition variable with atomic release-and-sleep, FIFO wakeups and no spurious ones, or is invisible |
| `QthreadsCond.RunRefines` | src/impl/qthreads/threads_qthreads_mutex.h:96-158 | every run is a run of the abstract condition variable from its initial state |
| `CondBridge.SleepAgrees` | src/impl/base/wait_sync.c:83 | seen through one sync, falling asleep in the wait-sync model is the only sleep step of the abstract condition variable |
| `CondBridge.WakeAgrees` | src/impl/base/wait_sync.c:36 | a signal wakes the waiter in the model iff and as it does in the abstract condition variable |
| `CondBridge.ReturnNeedsWakeup` | src/impl/base/wait_sync.c:83 | only a waiter that the model has woken can return |
| `CondBridge.ReturnAgrees` | src/impl/base/wait_sync.c:83 | it returns in the model exactly when and as from the abstract condition variable |
| `CondBridge.LockAgrees` | src/impl/base/wait_sync.c:35 | everybody else's acquisition of the sync's lock is one of the condition's mutex |
| `QthreadsCond.SpecConserves` | src/impl/qthreads/threads_qthreads_mutex.h:103-158 | in the abstract condition variable, for each thread, sleeps equal wakeups plus one while it sleeps, and wakeups equal returns plus one while it is woken |
| `QthreadsCond.WakeupsConserved` | src/impl/qthreads/threads_qthreads_mutex.h:103-158 | over every run of the implementation the same holds for each thread, so its k-th return uses its k-th wakeup, issued after its k-th enqueue |
| `QthreadsCond.ReturnMatchesWakeup` | src/impl/qthreads/threads_qthreads_mutex.h:103-158 | a thread asleep at one point of a run and returned at a later one without a further enqueue was taken off the head of the queue and marked exactly once in between |
| `QthreadsReturn.WokenReturns` | src/impl/qthreads/threads_qthreads_mutex.h:117-129 | a signalled waiter returns: every run of its own actions and of those of lock holders that cannot be extended has, within a bound, brought it back with the mutex and its wakeup used up |
| `QthreadsReturn.WokenCanReturn` | src/impl/qthreads/threads_qthreads_mutex.h:117-129 | and there is such a run from every such state |
| `QthreadsReturn.HelpNext` | src/impl/qthreads/threads_qthreads_mutex.h:117-129 | each of these actions returns the waiter or lowers what stands between it and its return |
| `QthreadsReturn.WaitCallSleeps` | src/impl/qthreads/threads_qthreads_mutex.h:103-130 | when a wait call returns, its thread holds the mutex and has since slept, been woken and returned exactly once |
| `QthreadsReturn.SignalCallWakesOne` | src/impl/qthreads/threads_qthreads_mutex.h:146-158 | when a signal call returns, exactly one of its steps has released the longest sleeper of that moment, or nobody if there was none |
| `QthreadsReturn.BroadcastCallWakesAll` | src/impl/qthreads/threads_qthreads_mutex.h:132-144 | when a broadcast call returns, everybody who was asleep when it was called has been woken since |
| `QthreadsCond.SignalCannotMiss` | src/impl/qthreads/threads_qthreads_mutex.h:146-158 | a signal wakes the longest sleeper and nobody else; a condition's only sleeper cannot be missed |
| `QthreadsCond.BroadcastReleasesAll` | src/impl/qthreads/threads_qthreads_mutex.h:132-144 | a broadcast leaves its loop iff nobody is asleep, and each round before that wakes one |
| `TrackedKey.Key.constructor` | src/impl/base/tsd.c:24-30 | a new key has no slots, no items and no user destructor |
| `TrackedKey.Key.Get` | src/tsd.h:109-120 | the thread's value or NULL |
| `TrackedKey.Key.Set` | src/impl/base/tsd.c:48-70 | success, failure of the allocation and failure of the store: the caller's value, every other thread's value unchanged, and what was added to the list |
| `TrackedKey.Key.Exit` | src/impl/base/tsd.c:3-22 | a thread's item is unlinked and released and its value passed on; nothing happens on an empty slot |
| `TrackedKey.Key.Destroy` | src/impl/base/tsd.c:32-46 | the loop releases every listed item, orphans included, once and in order, and passes each value on |
| `TrackedKeyProtocol.StepInv` | src/impl/base/tsd.c:3-70 | every step of interleaved sets, exits and one destruction keeps the agreement of slots, list and the life of each item |
| `TrackedKeyProtocol.NeverTwice` | src/impl/base/tsd.c:3-46 | over every run no item is released twice or reported twice, and nothing listed has been released or reported |
| `TrackedKeyProtocol.ExactlyOnce` | src/impl/base/tsd.c:3-46 | when the key is destroyed every item ever allocated is off the list, released exactly once, and its last value went to the user destructor exactly once |
| `TrackedKeyTraces.DestructionReports` | src/impl/base/tsd.c:32-70 | over any trace, that value is the one in the label of the set call that wrote the item last |
| `TrackedKeyTraces.ExitReports` | src/impl/base/tsd.c:3-22 | when a thread with a value has exited, its item is off the list and released once and the user destructor has received once the value of the set call that wrote it last |
| `TrackedKeyTraces.ItemHoldsSet` | src/impl/base/tsd.c:66-67 | every item holds the value of the set call that wrote it last |
| `TrackedKeyTraces.ListIsFifo` | src/impl/base/tsd.c:60-63 | while the key is in use the list is the appended and not yet unlinked items in order of their appending |
| `TrackedKeyTraces.DestroyInOrder` | src/impl/base/tsd.c:36-43 | a call of the destructor takes the items off one by one in list order, and is done only when it has taken them all |
| `TrackedKeyTraces.OperationsEnd` | src/impl/base/tsd.c:3-70 | sets, exits and the destruction come to their end: a run without new calls is bounded, and one that cannot be extended has finished them all |
| `TrackedKeyTraces.GetReturnsLastSet` | src/tsd.h:109-120 | over any trace a thread between operations, of whose sets none failed, reads the value in the label of its last set call since its start, or NULL |
| `TrackedKeyTraces.GetIsExact` | src/impl/base/tsd.c:48-70 | with failures: it reads the value of the last set call that got as far as storing, unless that failed for a thread without a value |
| `TrackedKeyProtocol.SetIsPrivate` | src/impl/base/tsd.c:48-70 | no step of one thread changes what another reads |
| `TrackedKeyProtocol.SlotsAreListed` | src/impl/base/tsd.c:60-69 | over every run an occupied slot's item is on the list exactly once, belongs to the slot's thread and points back to its key, and so does an item whose thread exit is about to unlink it |
| `CounterCondition.StepInv` | src/condition.h:25-105 | every step keeps the counters equal to what they count, and the door of the macros consistent with who is inside |
| `CounterCondition.TokensAreExact` | src/condition.h:25-105 | whenever the mutex is free `c_waiting` is the number of threads in the wait loop, 0 <= `c_signaled` <= `c_waiting`, and without timed waits `c_signaled` is 0 or `c_waiting` |
| `CounterCondition.MutualExclusion` | src/threads.h:46-73 | at most one thread is between acquire and release, and then `active` is true |
| `CounterCondition.NobodyStranded` | src/threads.h:46-73 | whenever the lock is free and `active` is false every thread in the wait loop has a token |
| `CounterService.TokensLetAllReturn` | src/condition.h:36-50 | from every reachable state with the mutex free and a token for each waiter, timed or not: a run of the waits without new calls is bounded, and one that cannot be extended has returned every wait and left both counters 0 |
| `CounterService.StartsDraining` | src/condition.h:36-50 | every reachable state with the mutex free and `c_signaled` equal to `c_waiting` is such a state |
| `CounterService.AcquirerEnters` | src/threads.h:46-53 | whenever the lock is free and `active` is false, each thread waiting in an acquire gets inside by its own actions alone |
| `CounterService.NewcomerEnters` | src/threads.h:46-53 | and so does a thread that calls acquire now |
| `CounterService.ReleaseLetsIn` | src/threads.h:67-73 | from every reachable state with a thread inside, its release lets a waiting acquirer in |
| `CounterService.BroadcastGivesTokens` | src/condition.h:102-105 | when a broadcast call returns, every thread in the wait loop has a token |
| `CounterService.WaitNeedsToken` | src/condition.h:25-51 | a wait call returns with the mutex held, and only after it has seen a token since it was called |
| `CounterService.LateArrivalTakesNone` | src/condition.h:30-36 | a wait called while there are tokens passes by the loop and takes none of them |
| `CounterCondition.DeadlineTestIff` | src/condition.h:70-72 | the clock test is just the comparison of seconds, and agrees with the intended deadline iff the seconds differ or the microseconds are still below |
| `CounterCondition.TimeoutIsWholeSeconds` | src/condition.h:65-72 | a timed wait without a token leaves its loop iff the second of its deadline is over |
| `CounterService.TimedCallIff` | src/condition.h:53-72 | by the labels: a timed wait called with (sec, nsec) that finds no token goes on iff the seconds of its last clock reading are at most sec |
| `CounterService.TimedKeepsMutex` | src/condition.h:64-91 | a timed wait called while there are tokens returns without giving up the mutex |
| `CounterService.TimedReturnsLocked` | src/condition.h:53-93 | a timed wait returns with the mutex held |
| `CounterCondition.Deadline` | src/condition.h:61-62 | the deadline has the seconds of the call and its nanoseconds truncated to microseconds |
| `CounterCondition.DeadlineOverrun` | src/condition.h:53-72 | for every deadline and every clock reading at or after it in the same second a run reads that clock and waits on |
| `NanosleepSplit.SplitExactIff` | src/impl/pthreads/threads_pthreads_yield.c:60-61 | for every 64-bit value, with every operation rounded to nearest, the parts are quotient and remainder iff the conversion to a double stays within the second, the start of the second is a double, and the converted value is not the one case just below a second from 2^33 seconds on |
| `NanosleepSplit.SplitIsExact` | src/impl/pthreads/threads_pthreads_yield.c:60-61 | up to 9007199999999998 the split is exact however ties are broken, and the parts give the value back |
| `NanosleepSplit.SplitIsSafe` | src/impl/pthreads/threads_pthreads_yield.c:60-61 | below 2^62 it is exact for every value more than 256 nanoseconds before the next second |
| `NanosleepSplit.FirstFailure` | src/impl/pthreads/threads_pthreads_yield.c:60-61 | with ties to even 9007199999999999 is split into one second too many and -1 nanoseconds |
| `NanosleepSplit.FirstFailureIsReal` | src/impl/pthreads/threads_pthreads_yield.c:60-61 | that split exists |
| `NanosleepSplit.FirstFailureRoundsUp` | src/impl/pthreads/threads_pthreads_yield.c:60 | the conversion of that value with ties to even is exactly the next full second |
| `NanosleepSplit.QuotientTruncates` | src/impl/pthreads/threads_pthreads_yield.c:60 | truncating the rounded quotient of a safe value is integer division |
| `NanosleepSplit.QuotientRoundsUp` | src/impl/pthreads/threads_pthreads_yield.c:60 | the excluded value rounds up to the next second |
| `NanosleepSplit.JoinExactIff` | src/impl/pthreads/threads_pthreads_yield.c:54 | where the seconds alone are exact, joining the parts, rounded twice and truncated, is exact iff the total is a double |
| `NanosleepSplit.JoinUndoesSplit` | src/impl/pthreads/threads_pthreads_yield.c:54-61 | joining the parts of a value below 2^53 gives the value back |
| `NanosleepSplit.SplitUndoesJoin` | src/impl/pthreads/threads_pthreads_yield.c:54-61 | splitting what was joined gives the parts back, if the nanoseconds are less than a second |
| `NanosleepSplit.SplitExists` | src/impl/pthreads/threads_pthreads_yield.c:60-61 | every 64-bit value has a split, so none of these is vacuous |
| `SelfKey.RunInv` | src/impl/qthreads/threads_qthreads_module.c:16-31 | over every run the flag is set only after the creation and the lock protects the second test |
| `SelfKey.CreatedOnceBeforeUse` | src/impl/qthreads/threads_qthreads_module.c:16-31 | the key is created at most once, and whoever returned did so after its creation |
| `SelfKey.CallsReturn` | src/impl/qthreads/threads_qthreads_module.c:16-31 | a run without new calls is bounded, and one that cannot be extended has returned every call after the creation of the key |
| `SelfKey.CallGoesOn` | src/impl/qthreads/threads_qthreads_module.c:18-20 | a call starts, and one made when the flag is set never asks for the lock |

## Left out

- The argobots and pthreads wrappers, `create_join.c`, `mutex.c` and `thread_usage.h`: they forward to code that is not part of this model and would only add easy members.
- The single-threaded variants `sync_wait_st` and `threads_base_wait_sync_global_wakeup_st`, and the single-threaded branches of `condition.h`.
- `WAIT_SYNC_RELEASE_NOWAIT`, `WAIT_SYNC_SIGNALLED` and `WAKEUP_THREAD`: they are correct only under a discipline of their callers that the source does not state.
- `condition_signal`: it adds tokens without regard to those already there, so the token results are stated for broadcasts.
- Weak memory ordering and the barriers that deal with it.
- 32-bit wrap-around of counts and of the in-progress counter.
- Waits nested inside `progress()`: for the safety results the inner wait is one more wait; the deadlock, drain and service results do not account for the outer wait standing still meanwhile.
- Fair scheduling: the drain and service results are about runs that cannot be extended, not about schedulers.
- WaitSyncTheorems.NoLostCompletion: does not hold after an update that leapt over 0; `OvershootLosesCompletion` is the exact limit.
- WaitSyncOpen.ReleasedIsUntouched: needs orderly callers; `ReleasedTouchedIff` is the condition without them.
- SyncRing.WaitSync.Update: runs an update without interruption; its interleaving with other threads is in `WaitSyncModel`.
- TrackedKey.Key.Set: runs one operation at a time; interleavings are in `TrackedKeyProtocol`.
- TrackedKeyProtocol.ExactlyOnce: a destruction of the key that overlaps sets or exits, a user destructor replaced during a run, and values set again from within a destructor are not modelled.
- CounterCondition.DeadlineTestIff: the clock itself is the environment's choice and need not advance.
- Component registration, configuration variables, object macros, debug output, time and sleep system calls, and build files.
