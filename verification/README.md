# A verified model of the queue and test-group utilities

This project models, in Dafny, the two hand-written concurrent algorithms of the HSA runtime
conformance suite and the arithmetic they rest on, and proves what they guarantee.

**The AQL ring buffer** (`src/utils/queue_utils.c`, `src/utils/dispatch_utils.c`). Any number of
threads reserve 64-bit indices, spin until the ring has room, write a packet into the slot of each
index, publish it by storing the 16-bit header last, and ring a doorbell. A packet processor takes
packets in index order (user mode queuing, section 2.8 of the HSA Platform System Architecture
Specification 1.0).

* `Words.dfy`: 64-bit wrap-around, bitwise AND, powers of two, and the slot of an index.
* `Sums.dfy`: sums over sequences, used by every counting argument.
* `RingProtocol.dfy`: the step system. A thread sees an index only through `U64`, so every guard,
  slot and doorbell value is computed in 64-bit arithmetic on unbounded indices. The body copy
  writes its words one step at a time, in any order. `log`, `owner`, `kinds`, `published`,
  `taken`, `returned` and `bells` are history.
* `RingInvariant.dfy`: the inductive invariant and its preservation, step by step.
* `RingTheorems.dfy`: safety, refinement to a log, guards, doorbells, synchronous dispatch, and the
  fault of the single-packet form.
* `RingProgress.dfy`: progress with an explicit bound.
* `RingCalls.dfy`: when each step of a call is possible, and that every published index is rung.
* `AqlQueue.dfy`: the same functions in their imperative form, a class over an array with the
  source's loops. The methods are one thread's calls; the processor and the other threads, which
  reserve, publish and ring whenever they like, act at every load and before every packet written. The
  processor may leave a packet alone as long as its thread has not rung for it.

**The test-group round barrier** (`src/utils/concurrent_utils.c`). N worker threads and a master
share one mutex, one condition variable, a one-bit `run_flag`, an `exit_flag` and a countdown.

* `RoundBarrier.dfy`: the step system, one step per lock, unlock, condition wait, broadcast and
  shared read or write, with spurious wakeups as the pthread_cond_wait entry of POSIX.1-2008
  permits. The master creates the threads, calls start and wait in any order, then exit once.
* `BarrierInvariant.dfy`, `BarrierTheorems.dfy`: the invariant and its consequences, for every
  number of workers and rounds.
* `BarrierCalls.dfy`: what a start, a wait and an exit do from the call to the return.
* `TestGroup.dfy`: building a group (create, add, resize, thread creation) as a class over arrays.

In both step systems a run is a sequence of states in which each follows from the one before by an
enabled action. The `RunKeeps` lemmas show that every state of every run satisfies `Inv` (for the
ring: every run without over-admission, see below), so a lemma that requires `Inv` speaks of every
reachable state; `RingCalls.BellInvHolds` does the same for `BellInv`.

## What turned out false of the code

* **The single-packet wait loop admits one index too many** (`src/utils/queue_utils.c:65-67` loops
  while `delta > size`, and the comment above it promises an empty slot). At distance exactly
  `size` the slot is the read index's own. `RingTheorems.OverAdmissionIsCollision` gives the exact
  condition, `OverAdmissionOverwrites` what follows for every ring size, and
  `SingleFormLosesAPacket` a concrete run. What a caller can check is the room when it reserves:
  `RoomAtReserveSuffices` shows every run safe in which each single call sees less than one turn
  reserved ahead, and `NoRoomOverAdmits` that exactly one turn is let through at once.
  `RunKeeps` holds for all runs in which no admission is at that distance; runs of batch and
  dispatch calls never have one (`StrictRunKeeps`).
* **A batch larger than the ring repeats its first packets**: each chunk indexes the array from 0
  again (`src/utils/queue_utils.c:121-124`). `RingTheorems.BlockIsArray` says for which arrays the
  result is still the array, and `BatchRepeatsFirst` is the smallest case where it is not.
* **An exit without a wait can skip a round**, because `exit_flag` is read outside the lock
  (`src/utils/concurrent_utils.c:85`): `BarrierTheorems.ExitWithoutWaitSkips` is a run.
  `ExitRunsExactlyCommitted` is the exact condition: a worker runs the last round exactly when, at
  the moment `exit_flag` is set, it has reported that round or is already past its `exit_flag`
  test in it. `BarrierCalls.QuietExitSkipsNothing` is the corollary a caller can check, an exit at countdown zero.
* **A status can read TEST_RUNNING after wait returns** (`src/utils/concurrent_utils.c:98-101`):
  `BarrierTheorems.WaitReturnsBeforeStop` and `StatusWhenWaitReturns`.
* **A shrinking resize is carried out after its error message**
  (`src/utils/concurrent_utils.c:163-169`): `TestGroup.Group.Resize` says the group stays well formed
  exactly when the new size is at least `num_test`; `ShrinkBelowTests` is a concrete case.
* **The size check of an add can be passed by a sum that wraps**
  (`src/utils/concurrent_utils.c:144`): `TestGroup.GuardExactUnlessWrapped` says the check is right
  exactly when `num_copy + num_test` stays below 2^64, and `TestGroup.Group.Add` what happens otherwise.

The comments at `src/utils/concurrent_utils.c:58` and `:89-92` say that a finished test becomes
TEST_FINISHED and that the count is compared with one under an atomic operation. The code stores
TEST_STOP and compares with zero under the mutex; the model follows the code.

## Assumptions

* Memory steps are sequentially consistent and the header store is one step.
* The processor takes the slot of the read index only when its header is ready, marks the slot not
  ready, then increments the read index; a completion signal is decremented only for a packet it
  has taken. All headers start not ready. Packets submitted have a ready header.
* A dispatch zeroes the header first (`src/utils/dispatch_utils.c:75`), so its calls require header
  0 to be not ready.
* The ring size is a power of two below 2^32 and there are fewer than 2^32 - 1 threads, which is
  what keeps outstanding reservations below 2^64 (`RingInvariant.OutstandingBound`).
* In `AqlQueue.dfy`, `patience` bounds how many loads in a row find the read index unmoved although
  its packet is published or belongs to another thread. Other threads keep the batch or dispatch
  guard. A wait loop is entered only when no index it has to see consumed is still to be published
  or rung by the same thread, which would never end in the source either.
* Test functions return, and thread creation and joins succeed. `num_test` is below 2^31.

## Model

| member | source | states |
|---|---|---|
| `Words.BitTrickIsPowerOfTwo` | src/utils/agent_utils.c:55-57 | the bit trick answers true exactly for the powers of two |
| `Words.IsPowerOfTwoLocal` | src/core/api/test_helper_func.c:84-88 | the shifting loop answers exactly as the bit trick, on every input |
| `Words.MaskedSlotIsWrap` | src/utils/queue_utils.c:114-118 | the masked 64-bit index selects the slot of the true index, however often the index has wrapped |
| `Words.ModuloSlotIsWrap` | src/utils/dispatch_utils.c:71-72 | the modulo slot is the same slot |
| `Words.UnmaskedSlotAgrees` | src/core/api/test_helper_func.c:439-441 | the unmasked slot agrees with the masked one exactly when the 64-bit index is below the ring size |
| `RingInvariant.GuardsSeeTrueDistance` | src/utils/queue_utils.c:64-67 | in every reachable state both wait loops compare the true distance |
| `RingInvariant.OutstandingBound` | src/utils/queue_utils.c:91 | reserved minus consumed stays below 2^64 for any number of threads |
| `RingInvariant.StepKeeps` | src/utils/queue_utils.c:100-138 | every step of a reserve, wait, copy, header store, doorbell, take or completion that does not over-admit keeps the invariant |
| `RingInvariant.RunKeeps` | src/utils/queue_utils.c:49-138 | the invariant holds throughout every run without over-admission |
| `RingInvariant.StoreFillsSlot` | src/utils/queue_utils.c:120-124 | at the header store the slot receives exactly the whole packet its index is to carry |
| `RingTheorems.StrictRunKeeps` | src/utils/queue_utils.c:106-112 | runs of batch and dispatch calls never over-admit, so the invariant holds in each of their states unconditionally |
| `RingTheorems.StrictRunIsSafe` | src/utils/queue_utils.c:86-135 | in such runs occupied slots are distinct, no published packet changes before it is taken, and the processor takes a prefix of the log |
| `RingTheorems.UncrowdedRunKeeps` | src/utils/queue_utils.c:60-84 | any mix of calls is safe while reserved minus consumed never exceeds the ring size |
| `RingTheorems.RoomAtReserveSuffices` | src/utils/queue_utils.c:49-67 | any run in which each single call sees room when it reserves keeps the invariant and never over-admits |
| `RingTheorems.NoRoomOverAdmits` | src/utils/queue_utils.c:49-67 | a single call that reserves and waits is over-admitted at once exactly when one whole turn was reserved ahead |
| `RingCalls.AdmittedExactly` | src/utils/queue_utils.c:63-67 | in every reachable state a waiting thread is let through exactly when its whole chunk, or dispatch packet, ends within one turn of the read index; a single packet exactly when it starts within one turn or at it |
| `RingCalls.BusyThreadMoves` | src/utils/queue_utils.c:109-134 | a thread inside a call is held up exactly by a full ring or, in a dispatch, by a packet not completed; nothing else blocks it |
| `RingCalls.ReservingNeverWaits` | src/utils/queue_utils.c:91 | an idle thread can reserve at any time, however full the ring, and gets the indices after all reserved so far |
| `RingCalls.DispatchFillsClearedSlot` | src/utils/dispatch_utils.c:75-91 | while a dispatch fills its slot each word is its packet's or zero, and the header is zero until the store that publishes it |
| `RingTheorems.GuardsCompared` | src/utils/dispatch_utils.c:67-68 | the three exit tests compared: batch of one and dispatch admit the same states; single admits exactly the distance `size` more |
| `RingTheorems.OverAdmissionIsCollision` | src/utils/queue_utils.c:63-72 | an admitted single packet shares its slot with an earlier unconsumed index exactly at distance `size` |
| `RingTheorems.OverAdmissionOverwrites` | src/utils/queue_utils.c:65-75 | after such an admission the copy destroys the untaken packet at the read index |
| `RingTheorems.SingleFormLosesAPacket` | src/utils/queue_utils.c:60-84 | a concrete one-thread run in which a published packet is overwritten before it is taken |
| `RingTheorems.PublishedPacketsSurvive` | src/utils/queue_utils.c:74-78 | no step changes a published packet before the processor takes it |
| `RingTheorems.OccupiedSlotsDistinct` | src/utils/queue_utils.c:110-118 | admitted or published, unconsumed indices all have different slots |
| `RingTheorems.NoTornPacket` | src/utils/queue_utils.c:120-124 | a slot whose header is ready holds one index's complete packet |
| `RingTheorems.RunRefinesLog` | src/utils/queue_utils.c:86-98 | the processor takes a prefix of a log in which each call owns one contiguous block, equal to its array when that fits the ring |
| `RingTheorems.StrictRunRefinesLog` | src/utils/queue_utils.c:86-127 | the same for batch and dispatch runs, with no side condition |
| `RingTheorems.BatchRepeatsFirst` | src/utils/queue_utils.c:116-124 | in a ring of one slot a batch of two different packets writes the first one twice |
| `RingTheorems.BlockIsArray` | src/utils/queue_utils.c:106-127 | a call's block equals its array exactly when the array has the ring size as a period |
| `RingCalls.BellInvHolds` | src/utils/queue_utils.c:78-81 | on every run without over-admission each published index is told to the processor or in hand, and the register holds the last value rung |
| `RingCalls.EveryPublishedIndexIsRung` | src/utils/queue_utils.c:129-130 | on every run each published index has been rung by its own thread, unless that thread is still in the chunk that holds it |
| `RingCalls.NobodyWaitsUntold` | src/utils/dispatch_utils.c:93-97 | a dispatch waiting for completion has rung its packet, a batch waiting for room has rung past all it has published, a thread between calls has rung everything |
| `RingTheorems.DoorbellTruth` | src/utils/queue_utils.c:129-130 | every index a thread reserved below a value it has rung is published |
| `RingTheorems.DoorbellValue` | src/utils/queue_utils.c:80-81 | single and dispatch ring their own published index, a batch one past its last; the indices a thread rings never decrease, and the register holds their 64-bit image |
| `Words.StoredOrder` | src/utils/queue_utils.c:81 | stored 64-bit values keep the order of two indices exactly when no wrap lies between them |
| `RingTheorems.DispatchReturnsAfterConsumption` | src/utils/dispatch_utils.c:96-101 | a dispatch returns only after the processor has taken its packet, whole |
| `RingTheorems.DispatchersBoundBacklog` | src/utils/dispatch_utils.c:59-99 | P threads that only dispatch never have more than P packets not yet taken |
| `RingProgress.SomebodyMoves` | src/utils/queue_utils.c:105-112 | with a reservation outstanding, the processor can step or the thread holding the smallest unpublished index can, being admitted at its wait loop |
| `RingProgress.RankStep` | src/utils/queue_utils.c:106-134 | each step of that thread or of the processor lowers a rank that no other step raises |
| `RingProgress.PublishedWithinRank` | src/utils/queue_utils.c:106-134 | on every run the index is published before those two have taken `Rank` steps |
| `RingProgress.StrictPublishedWithinRank` | src/utils/queue_utils.c:106-134 | the same for batch and dispatch runs, with no side condition |
| `RingProgress.MovesPersist` | src/utils/queue_utils.c:110-112 | no other step takes the processor's next step away |
| `RingProgress.OwnerMovePersists` | src/utils/queue_utils.c:110-112 | once all earlier indices are consumed, no step takes the owner's next step away |
| `AqlQueue.Queue.EnqueueDispatchPackets` | src/utils/queue_utils.c:86-98 | reserves one contiguous block that carries the array and publishes all of it, whatever the other threads do; the doorbell ends one past it |
| `AqlQueue.Queue.EnqueueDispatchPacketsAt` | src/utils/queue_utils.c:100-138 | for any reserved block, the chunk loop terminates, publishes exactly that block, and rings once per chunk, one past its last index, before it waits for the next |
| `AqlQueue.Queue.AwaitRoom` | src/utils/queue_utils.c:109-112 | the batch wait loop terminates with room for the whole chunk, provided the thread has rung for what it published |
| `AqlQueue.Queue.EnqueueDispatchPacketAt` | src/utils/queue_utils.c:60-84 | for any reserved index, publishes the packet, rings its index once, and keeps the queue valid, or collides exactly when the read index is one turn behind |
| `AqlQueue.Queue.EnqueueDispatchPacket` | src/utils/queue_utils.c:49-58 | collides exactly when the read index is then still one turn behind; with room at the call it does not |
| `AqlQueue.Queue.DispatchKernel1dData` | src/utils/dispatch_utils.c:52-102 | rings its index once, terminates, and only after the processor has taken at its index the packet built from the field assignments |
| `AqlQueue.FilledAt` | src/utils/dispatch_utils.c:74-85 | after memset and the assignments every word is its last assigned value, or zero |
| `AqlQueue.StorePublishes` | src/utils/queue_utils.c:120-126 | storing an unpublished index of the window publishes it and disturbs no other slot |
| `AqlQueue.TakeSlides` | src/utils/queue_utils.c:64-67 | taking at the read index returns its log entry and frees its slot for the index one turn on |
| `BarrierInvariant.StepKeeps` | src/utils/concurrent_utils.c:66-109 | every step of a worker or the master, spurious wakeups included, keeps the invariant |
| `BarrierInvariant.RunKeeps` | src/utils/concurrent_utils.c:66-269 | the invariant holds throughout every run, for any number of workers and rounds |
| `BarrierInvariant.StartNeedsAllReported` | src/utils/concurrent_utils.c:227-238 | a start is accepted only when every worker has reported the previous round and has no call in hand |
| `BarrierTheorems.OneBitIsEnough` | src/utils/concurrent_utils.c:70-81 | comparing the flag bits at the wait loop is comparing unbounded round counters |
| `BarrierTheorems.CallsFollowStarts` | src/utils/concurrent_utils.c:85-87 | each worker makes at most one call per accepted start and lags by at most one |
| `BarrierTheorems.NoUnderflow` | src/utils/concurrent_utils.c:93-94 | the unsigned countdown never underflows |
| `BarrierTheorems.CountdownCounts` | src/utils/concurrent_utils.c:93-98 | the countdown is the number of workers still to report the current round |
| `BarrierCalls.EveryWaitIsABarrier` | src/utils/concurrent_utils.c:133-141 | on every run, from each call of wait to its return: every worker has made and finished its call of every accepted round, and no later call has begun |
| `BarrierCalls.StartOutcome` | src/utils/concurrent_utils.c:227-241 | from each call of start to its return: if its one read of the countdown finds zero exactly one more start is accepted, otherwise nothing is changed; called at zero it is accepted |
| `BarrierCalls.StartAfterWait` | src/utils/concurrent_utils.c:227-241 | a start that follows a wait with no call between is accepted, however the workers move |
| `BarrierTheorems.StatusWhenWaitReturns` | src/utils/concurrent_utils.c:98-101 | a status reads TEST_RUNNING then exactly for a worker between its unlock and its TEST_STOP store |
| `BarrierTheorems.WaitReturnsBeforeStop` | src/utils/concurrent_utils.c:98-101 | a concrete run in which wait returns while a status reads TEST_RUNNING |
| `BarrierTheorems.NoLostWakeup` | src/utils/concurrent_utils.c:73-98 | nobody sleeps with its condition over unless a broadcast is still to come |
| `BarrierTheorems.BlockedMasterHasAWorker` | src/utils/concurrent_utils.c:133-138 | whenever the master is blocked, in wait, join or on the mutex, or makes no call while a report is owed, some worker can step |
| `BarrierTheorems.RoundIsBounded` | src/utils/concurrent_utils.c:73-98 | in a round the workers that have still to report take at most 13 N steps between them, under any interleaving |
| `BarrierTheorems.CallWorkDrops` | src/utils/concurrent_utils.c:133-138 | while the master creates the threads or is inside a call, every step but a spurious wakeup lowers one measure over all threads |
| `BarrierTheorems.CallReturns` | src/utils/concurrent_utils.c:133-141 | so every call, an exit until it sets exit_flag, lasts at most a number of steps fixed by N plus 5 for each spurious wakeup, and is never stuck |
| `BarrierTheorems.ExitWorkDrops` | src/utils/concurrent_utils.c:243-259 | after exit_flag is set every possible step lowers a measure over thread positions |
| `BarrierTheorems.ShutdownTerminates` | src/utils/concurrent_utils.c:243-269 | so every run from there is finite and can stop only after all joins |
| `BarrierTheorems.LeavesForGood` | src/utils/concurrent_utils.c:85-106 | a worker that sees exit_flag begins no further call and flips no further, for the rest of the run |
| `BarrierTheorems.NoCallAfterExit` | src/utils/concurrent_utils.c:103-105 | no step takes a leaving worker back, and an exited one is TEST_FINISHED and never moves again |
| `BarrierTheorems.ExitRunsExactlyCommitted` | src/utils/concurrent_utils.c:85-106 | on every run a worker completes every accepted round exactly when, as exit_flag was set, it had reported the last one or was past its exit test in it |
| `BarrierTheorems.FinalTally` | src/utils/concurrent_utils.c:243-259 | after the joins all are TEST_FINISHED, and the countdown left over is zero exactly when no round was skipped |
| `BarrierCalls.ExitIsFinal` | src/utils/concurrent_utils.c:244-259 | from an exit call on the master makes no other call, and the run can stop only with exit_flag set and every worker joined and TEST_FINISHED |
| `BarrierCalls.QuietExitSkipsNothing` | src/utils/concurrent_utils.c:244-259 | for callers: an exit called with the countdown at zero skips no call |
| `BarrierTheorems.ExitWithoutWaitSkips` | src/utils/concurrent_utils.c:85-106 | a concrete run, start then exit, in which the accepted start is never run |
| `TestGroup.GuardExactUnlessWrapped` | src/utils/concurrent_utils.c:144 | the size check is right exactly when the 64-bit sum does not wrap |
| `TestGroup.Group.Add` | src/utils/concurrent_utils.c:143-160 | appends all the copies, each with its function and data and not started; or refuses and changes nothing; or, exactly when the sum wraps, fills to the end of the list and runs off it |
| `TestGroup.Group.Resize` | src/utils/concurrent_utils.c:162-172 | keeps the entries that fit; the group stays well formed exactly when the new size is at least the number of tests |
| `TestGroup.ShrinkBelowTests` | src/utils/concurrent_utils.c:162-172 | a resize to 0 after one add leaves one test and no entry |
| `TestGroup.Group.ThreadCreate` | src/utils/concurrent_utils.c:175-205 | thread i gets id i and test i of the present list, one to one |
| `TestGroup.Group.Build` | src/utils/concurrent_utils.c:118-205 | any adds and non-shrinking resizes, then threads: the live tests are the accepted adds in order, entry by entry |
| `TestGroup.LiveIsAcceptedAdds` | src/utils/concurrent_utils.c:143-172 | over such sequences each accepted add's function and data stand, not started, in its own stretch of the live tests, which fit |

## Left out

- AqlQueue.Queue.DispatchKernel1dData: the position of each field in the packet and the header bits come from `hsa.h`, which is not part of this model; fields are words at given positions.
- TestGroup.Group.Add: what a write past the end of the list does is not modelled; the model stops there.
- RingProgress.PublishedWithinRank: bounds steps, not time; that an enabled thread is eventually scheduled is left to the scheduler.
- Weak memory: relaxed, acquire and release accesses are all sequentially consistent steps.
- A batch call with packet_count 0 reserves nothing; it is a case of `AqlQueue.Queue.EnqueueDispatchPackets` and no step of the ring protocol.
- `launch_no_op_kernels` beyond its slot address: it has no wait loop, and its signal loops are straight-line.
- Everything behind `hsa_*` calls: `hsa.h` is not part of this model.
- `test_group_kill`, `test_group_thread_affinity` and the ESRCH probe of `test_group_test_status`: cancellation and operating-system queries.
- Adds or resizes after thread creation, which can move the list the threads point into.
- Allocation failure, `perror`, printing, `pthread_attr` handling and the freeing of memory.
- The agent attribute checks, the finalizer and image utilities and the suite drivers: single-pass queries, file reading and registration tables with no shared state.
