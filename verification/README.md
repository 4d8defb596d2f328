# Verification model of the MPI communication offload engine

Application threads post MPI calls as commands into a lock-free ring. One offload thread pops them, takes a slot from
a lock-free free list, shows the slot index in the caller's request, makes the call, polls for completion and sets a
flag on which the waiting application thread spins. This project models the ring, the request pool and the engine that
joins them, one atomic memory access per step, and proves what holds in every run, for any number of threads, any
interleaving and any answers of the MPI library.

## How it is organised

| file | what it holds |
|---|---|
| `Words`, `IndexMap`, `RoundUp` | bits of unsigned words, the ring's index map, the power-of-two cascade |
| `LockedQueue` | the mutex queue, and the history semantics the ring is measured against |
| `Ring`, `RingFifo`, `RingTight`, `RingEnds` | the ring as a state machine; conservation; linearizability under the ticket bound; why the bound is needed, and what holds at sizes 1 and 2^31 |
| `AtomicQueue` | the ring as a class: wrapped counters, an array, the index map; each access proved to be the state machine's step |
| `FreeList`, `RequestPool` | the free list as a state machine, and the class with its arrays |
| `Engine` | the whole engine as a state machine: its state, program counters and atomic actions |
| `EngineInv`, `EngineBound`, `EngineApp`, `EngineOffload` | its invariant, the client bound, and that every action keeps the invariant |
| `EngineRuns`, `EngineTheorems`, `EngineHandles`, `EngineTests`, `EngineWaitall`, `EngineHolders`, `EngineDrain`, `EngineNull`, `EngineQuiet` | what follows for whole runs, also in terms of the callers' arguments |
| `OffloadEngine`, `Schedule` | the engine as an object, one method per atomic action, and a driver that performs any schedule |
| `Sweep`, `Waitall` | `test_requests` and `MPI_Waitall` as loops over the object |

The state machines are values, so that theorems about runs are lemmas. The classes hold the fields the program updates
in place; a ghost field carries the corresponding state, and every method's contract says that the fields and that
state made the same step. `Schedule.Run` closes the gap: whatever schedule the object performs, it goes through the
states of a run. The methods of `OffloadEngine` without a row below (the ends of a call, the head of the loop, the loads
that go through another object's method) perform the step of their name in the same way. Fields whose names speak of history (`log`, `ops`, `stack`, `place`, `stage`, `stored`, `writes`,
`issued`, `wants` and so on) record what happened; no step reads them to decide what to do.

## Assumptions

- Executions are sequentially consistent. Thread-private work is merged into a neighbouring shared access.
- A weak compare-exchange on the free list may fail spuriously; the ring's compare-exchanges are the strong ones.
- The non-blocking MPI calls return; they leave any handle of their own operation, or the null request, in the slot.
- `PMPI_Test` follows section 3.7.3 of MPI 3.1: a true answer stores the status and nulls the request, a false one
  leaves the request, and a null request answers true with the empty status. It is otherwise free to answer anything.
- A request is used by one call at a time and waited for exactly once. Its cell is not reused before its wait returns;
  memory that is no outstanding request's cell may be overwritten by anybody at any time.
- At most `bound` requests are posted and not yet released by a wait, where `bound` is at most the queue size, at
  most the pool size minus one, and below 2^31. Conservation of commands in the ring needs no bound.
- The queue capacity is between 1 and 2^31; the rounding of a larger one overflows to 0. Fewer than 2^31 tickets are
  outstanding, which the size implies except in a ring of 2^31 slots: filled, that ring reads as empty
  (`RingEnds.FullRingReadsEmpty`). The pool size is at most 2^32 - 1.

## Readings of the code

- In `test_requests` the element after an erased one is skipped, because the loop increments the iterator that `erase`
  returned. After the last element has been erased the loop increments `end()`, which the language leaves undefined.
  Both outcomes are modelled: the pass ends, or the iterator is at `begin()` again, as in a circular list. Every
  theorem holds for either, chosen anew each time.
- A true answer of `test` leaves the slot with the request; only `wait` releases it. After `wait` the request variable
  still holds the slot index.
- The ring's size bound counts tickets until their element has been exchanged out. Bounding head minus tail is not
  enough: `RingTight.CounterBoundIsNotEnough` builds, for every size from 2 on, a run in which a command overtakes an
  earlier one of its own thread. A ring of one slot needs no bound: it hands over in the order of the stores
  (`RingEnds.OneSlotIsFifo`).
- The free list comes from the pool's constructor in the order 1, 2, ...; slot 0 never enters it, so the capacity is the
  pool size minus one.

## Model

| member | source | states |
|---|---|---|
| LockedQueue.LockedQueue.Enqueue | src/locked_queue.h:24-28 | appends the element to the queue |
| LockedQueue.LockedQueue.Dequeue | src/locked_queue.h:30-42 | answers and removes the oldest element; a null pointer, and nothing changed, when empty |
| LockedQueue.ReplayIsFifo | src/locked_queue.h:24-42 | for every sequence of operations, what was delivered followed by what is still queued is what was enqueued, in order |
| IndexMap.RemapSwapsFields | external/atomic_queue/include/atomic_queue/atomic_queue.h:51-71 | the mapped index has the two lowest BITS-wide fields exchanged and every other bit in place |
| IndexMap.RemapInvolution | external/atomic_queue/include/atomic_queue/atomic_queue.h:57-71 | mapping twice gives the index back |
| IndexMap.RemapPermutation | external/atomic_queue/include/atomic_queue/atomic_queue.h:57-71 | on a ring of 2^e >= 2^(2 BITS) elements the map is a permutation of [0, size): injective, in range, onto |
| IndexMap.RemapSpreadsCacheLines | external/atomic_queue/include/atomic_queue/atomic_queue.h:51-71 | any 2^BITS cyclically consecutive indices land on pairwise different cache lines |
| IndexMap.CacheLineIsQuotient | external/atomic_queue/include/atomic_queue/atomic_queue.h:51-65 | the cache line of an index, read off by shifting, is the mapped index divided by the elements per line |
| IndexMap.ShuffleBitsFit | external/atomic_queue/include/atomic_queue/atomic_queue.h:31-49 | the chosen shuffle width always fits the ring, for every element size, so that ring indices are permuted |
| IndexMap.ShuffleBitsExact | external/atomic_queue/include/atomic_queue/atomic_queue.h:31-49 | with 2^b elements on a line, b up to 6, the width is exactly b on every ring of at least 2^(2b) slots and 0 on smaller ones |
| IndexMap.ConsecutiveOnDistinctLines | external/atomic_queue/include/atomic_queue/atomic_queue.h:31-71 | the ring's own map: on a ring of at least 2^(2b) slots any 2^b cyclically consecutive indices lie on pairwise different lines of 2^b elements |
| RoundUp.OrEqualDoublesRun | external/atomic_queue/include/atomic_queue/atomic_queue.h:101-109 | each shift-or step doubles the run of ones below the top bit |
| RoundUp.CascadeFills | external/atomic_queue/include/atomic_queue/atomic_queue.h:106-117 | a cascade of doubling shifts turns a word with top bit n into 2^(n+1) - 1 |
| RoundUp.RoundUpIsLeast | external/atomic_queue/include/atomic_queue/atomic_queue.h:91-117 | in a word of any power-of-two width W: the least power of two at least a when 1 <= a <= 2^(W-1), and 0 for every other word |
| RoundUp.RoundUp32IsLeast | external/atomic_queue/include/atomic_queue/atomic_queue.h:111-113 | the 32-bit overload: the least power of two, or 0 exactly outside 1 .. 2^31 |
| RoundUp.RoundUp64IsLeast | external/atomic_queue/include/atomic_queue/atomic_queue.h:115-117 | the 64-bit overload: the least power of two, or 0 exactly outside 1 .. 2^63 |
| RoundUp.RingExponent | external/atomic_queue/include/atomic_queue/atomic_queue.h:343-344 | the size chosen for a capacity is a power of two that holds it and is at most 2^31; for every larger capacity the rounding gives 0 and there is no ring |
| Ring.WrappedTestExact | external/atomic_queue/include/atomic_queue/atomic_queue.h:273-289 | with fewer than 2^31 tickets between them the signed difference of the wrapped counters is the true difference |
| Ring.WrappedTest | external/atomic_queue/include/atomic_queue/atomic_queue.h:273-289 | over the whole range of words the test says there is work exactly when the true difference is positive and below 2^31 |
| Ring.WrappedSlot | external/atomic_queue/include/atomic_queue/atomic_queue.h:351-359 | a wrapped counter falls on the same slot as the true one |
| Ring.ClaimRetries | external/atomic_queue/include/atomic_queue/atomic_queue.h:281-285 | a failed compare-exchange on the tail has loaded the present one: the next test is about the present counters, and undisturbed the next compare-exchange claims the present ticket |
| Ring.CommandsConserved | external/atomic_queue/include/atomic_queue/atomic_queue.h:155-197 | in every run, with no bound at all, the pushed commands are as a multiset those answered, those in slots and those still held by producers |
| RingFifo.StoreSucceeds | external/atomic_queue/include/atomic_queue/atomic_queue.h:181-197 | under the ticket bound the slot of a held ticket is free and the compare-exchange succeeds at once |
| RingFifo.HeadTestExact | external/atomic_queue/include/atomic_queue/atomic_queue.h:282-285 | try_pop's test on wrapped counters is exactly the test for emptiness |
| RingFifo.SizeBoundSuffices | external/atomic_queue/include/atomic_queue/atomic_queue.h:282-285 | for sizes up to 2^30 the bound on untaken tickets alone keeps the counters less than 2^31 apart |
| RingFifo.CasTailKeeps | external/atomic_queue/include/atomic_queue/atomic_queue.h:281-285 | the single consumer's compare-exchange on the tail always claims the next ticket |
| RingFifo.ExchangeDelivers | external/atomic_queue/include/atomic_queue/atomic_queue.h:155-179 | the exchange waits while the claimed ticket's producer has not stored, and then delivers that ticket's command |
| RingFifo.LoadHeadLinearized | external/atomic_queue/include/atomic_queue/atomic_queue.h:273-289 | an empty answer is given exactly when the abstract queue is empty, at the load of head |
| RingFifo.NextLinearized | external/atomic_queue/include/atomic_queue/atomic_queue.h:155-303 | every access keeps the refinement: the locked queue, given the operations in linearization order, holds the same elements and gave the same answers |
| RingFifo.RingRefinesLockedQueue | src/locked_queue.h:24-42 | in every interleaving of any number of producers and one consumer that respects the ticket bound the ring is linearizable to the locked queue |
| RingTight.CounterBoundIsNotEnough | external/atomic_queue/include/atomic_queue/atomic_queue.h:155-197 | for every ring size from 2 on a run with head - tail within the size and one ticket beyond the bound whose first answer no order of the operations that respects each thread's own order can explain |
| RingTight.NeverFirst | src/locked_queue.h:24-42 | in an order that respects each thread's own, the locked queue never delivers first a command that follows another of its thread |
| RingEnds.OneSlotIsFifo | external/atomic_queue/include/atomic_queue/atomic_queue.h:155-197 | a ring of one slot is linearizable to the locked queue in every run whose counters stay less than 2^31 apart, whatever the ticket bound, each operation taking effect within its own call |
| RingEnds.FullRingReadsEmpty | external/atomic_queue/include/atomic_queue/atomic_queue.h:273-289 | a ring of 2^31 slots filled by returned pushes answers null where the locked queue answers the oldest command |
| AtomicQueue.AtomicQueue.constructor | external/atomic_queue/include/atomic_queue/atomic_queue.h:338-369 | an empty ring of the rounded-up capacity with the chosen shuffle width |
| AtomicQueue.AtomicQueue.PlaceUpdate | external/atomic_queue/include/atomic_queue/atomic_queue.h:351-359 | writing a mapped array element writes that slot of the ring and no other |
| AtomicQueue.AtomicQueue.FetchAdd | external/atomic_queue/include/atomic_queue/atomic_queue.h:291-303 | takes the next ticket and wraps the counter |
| AtomicQueue.AtomicQueue.TryStore | external/atomic_queue/include/atomic_queue/atomic_queue.h:181-197 | one compare-exchange of NIL for the element in the ticket's slot |
| AtomicQueue.AtomicQueue.LoadTail | external/atomic_queue/include/atomic_queue/atomic_queue.h:274-274 | reads the wrapped tail |
| AtomicQueue.AtomicQueue.LoadHead | external/atomic_queue/include/atomic_queue/atomic_queue.h:281-284 | the signed comparison of the two wrapped counters |
| AtomicQueue.AtomicQueue.CasTail | external/atomic_queue/include/atomic_queue/atomic_queue.h:285-285 | claims a ticket, or reloads the observed tail |
| AtomicQueue.AtomicQueue.Exchange | external/atomic_queue/include/atomic_queue/atomic_queue.h:155-179 | one exchange of the claimed slot for NIL, answering what was there |
| AtomicQueue.AtomicQueue.Enqueue | src/atomic_queue.h:15-15 | undisturbed: the abstract queue becomes what the locked queue's enqueue makes of it |
| AtomicQueue.AtomicQueue.Dequeue | src/atomic_queue.h:16-23 | undisturbed: the answer and the abstract queue are what the locked queue's dequeue gives, the null pointer included |
| FreeList.ChainUnique | src/array_request_manager.h:144-177 | the chain is a function of head and nexts: no second sequence is visited from head |
| FreeList.LinkKeeps | src/array_request_manager.h:146-148 | storing a successor for a slot being released changes no slot of the chain |
| FreeList.SwapInKeeps | src/array_request_manager.h:144-151 | a successful release puts its slot on top of the whole chain; a failed one changes nothing |
| FreeList.ReleaseRetries | src/array_request_manager.h:144-151 | a failed compare-exchange of release has loaded the head the next one needs: undisturbed, one more store of the successor and one more compare-exchange put the slot on the chain |
| FreeList.ReleaseAlone | src/array_request_manager.h:144-151 | a release that is left alone from its load of head needs no retry |
| FreeList.AcquireSwapKeeps | src/array_request_manager.h:153-161 | no ABA: a successful acquire removes exactly the first slot and leaves exactly the old tail, whatever was released in between |
| FreeList.AcquireRetriesOnce | src/array_request_manager.h:155-161 | a failed compare-exchange of acquire has loaded the present head: undisturbed, the next one takes the slot that is first by then, and an empty list is reported |
| FreeList.SlotsPartitioned | src/array_request_manager.h:133-177 | slots 1 .. size - 1 are partitioned between chain, slots handed out and slots being released, and the counts sum to size - 1 |
| FreeList.EmptyExactly | src/array_request_manager.h:153-172 | the list is empty exactly when all size - 1 slots are handed out or being released |
| FreeList.ListAlwaysSound | src/array_request_manager.h:133-177 | in every run of releasers and one acquirer the chain from head is the recorded one, without duplicates, without slot 0, ending at INVALID, and no slot is lost |
| RequestPool.RequestPool.constructor | src/array_request_manager.h:133-142 | the filling loop builds the chain 1, 2, ..., size - 1 and nothing else |
| RequestPool.RequestPool.ReleaseLoad | src/array_request_manager.h:146-146 | the load of head that release begins with |
| RequestPool.RequestPool.ReleaseLink | src/array_request_manager.h:146-148 | the store of the observed head as the slot's successor |
| RequestPool.RequestPool.ReleaseSwap | src/array_request_manager.h:147-150 | one weak compare-exchange of release on the arrays is the state machine's step |
| RequestPool.RequestPool.AcquireLoad | src/array_request_manager.h:155-155 | the load of head that acquire begins with |
| RequestPool.RequestPool.AcquireNext | src/array_request_manager.h:159-159 | the load of the observed head's successor, before the compare-exchange |
| RequestPool.RequestPool.AcquireSwap | src/array_request_manager.h:157-174 | one weak compare-exchange of acquire; success puts the slot at the front of used |
| RequestPool.RequestPool.Release | src/array_request_manager.h:144-151 | undisturbed: the slot becomes the first of the chain |
| RequestPool.RequestPool.Acquire | src/array_request_manager.h:153-177 | undisturbed: the first slot of the chain moves to the front of used; from an empty list INVALID is answered and pushed to used |
| EngineBound.TicketsBounded | src/offload.h:112-118 | a post about to take its ticket and all untaken tickets are distinct unreleased requests |
| EngineBound.SlotAvailable | src/array_request_manager.h:153-172 | while a popped command waits for its slot the free list is not empty |
| EngineBound.TicketFits | external/atomic_queue/include/atomic_queue/atomic_queue.h:292-303 | a post's fetch_add never reaches a slot whose previous ticket is untaken |
| EngineInv.InitialInv | src/array_request_manager.h:133-142 | a fresh engine satisfies the invariant |
| EngineApp.AppNextKeeps | src/array_request_manager.h:62-118 | every access of an application thread (post, wait, test, release, reuse of memory, stop) keeps the whole invariant |
| EngineOffload.OffloadNextKeeps | src/offload.h:34-61 | every access of the offload thread keeps the whole invariant |
| EngineRuns.RunKeepsInv | src/offload.h:34-61 | every state of every run satisfies the invariant |
| EngineRuns.BoundMakesSafe | src/mpi/mpi_interposition.h:11-15 | at most min(queue size, pool size - 1) unreleased requests make the engine safe: the ticket bound holds, every store of a command succeeds at once, acquire never sees an empty list |
| EngineRuns.RingOnlyByActions | src/offload.h:89-94 | the engine touches the ring only through the ring's own accesses |
| EngineRuns.EngineQueueLinearizable | src/atomic_queue.h:11-27 | inside the engine, in every run, the queue is linearizable to the locked queue with no assumption beyond the client bound |
| EngineRuns.OffloadStores | src/array_request_manager.h:179-206 | a status is kept for a command exactly when PMPI_Test answers true on its own operation, and never twice |
| EngineTheorems.StoredIsTheAnswer | src/array_request_manager.h:179-206 | in every run the true answers given on a post's operation are none or the one status kept for it |
| EngineTheorems.WaitReturnsOwnStatus | src/array_request_manager.h:74-92 | in every run a wait that has returned copied out exactly the status answered for the command posted with that request, unless it was given no status to fill |
| EngineHandles.PostedAs | src/offload.h:112-118 | in every run a post keeps the thread, the request cell and the kind of call (with or without a request) its caller gave |
| EngineHandles.SlotHoldsHandle | src/offload.h:42-55 | in every run the slot of a post holds what its call returned, or the null request for a call without one, from the call until its operation tests complete, and the null request from then on |
| EngineHandles.AnsweredOnOwnHandle | src/array_request_manager.h:179-206 | in every run the answer that completes an operation is given on the handle its own call returned, and on the null request only if the call has none or returned none |
| EngineHandles.WaitReturnsOwnOperation | src/offload.h:34-61 | end to end, from the callers' arguments: behind every wait that has returned stand the step that began its post, the later step that made its call, and the still later one at which the library answered true on what that call left in the slot; that answer's status is what the wait copied out |
| EngineTheorems.SlotsConserved | src/array_request_manager.h:38-54 | in every reachable state slots 1 .. size - 1 are partitioned between the chain, outstanding requests and requests being released, and the counts sum to size - 1 |
| EngineTheorems.SlotsNotShared | src/array_request_manager.h:38-92 | no two requests hold one slot, and slot 0 is never handed out |
| EngineTheorems.ProgramOrder | src/offload.h:34-61 | commands of one thread reach MPI in the order it posted them, each at most once, as the non-overtaking rule of section 3.5 of MPI 3.1 needs |
| EngineTheorems.UsedBetweenIterations | src/array_request_manager.h:174-206 | between iterations used has no duplicates and holds exactly the slots whose operation has not tested complete, each with the handle of its own operation |
| EngineTheorems.NullSkipNeverTaken | src/array_request_manager.h:195-198 | the sweep never meets a null request |
| EngineTheorems.OverlapOnlyAtErase | src/array_request_manager.h:201-204 | a slot is on used and no longer with its request only between the store of done and the erase, at the iterator, with acquire not running |
| EngineTheorems.CellWrites | src/offload.h:112-118 | every store into a cell, also one that changes nothing, is a post beginning on it or its owner reusing it while no outstanding request uses it, or the offload thread turning the INVALID of the outstanding request that owns it into its slot |
| EngineTheorems.CellProtocol | src/array_request_manager.h:38-66 | in every run the engine writes a request's cell with INVALID and then once with a valid slot, and an outstanding request's cell shows the last of these |
| EngineTheorems.StagesMoveForward | src/array_request_manager.h:38-92 | a request's progress never goes back, so a released request stays released |
| EngineTheorems.NeverWrittenAgain | src/mpi/mpi_p2p.cpp:20-26 | once its wait has returned, no store into a request's cell is made on its behalf in the rest of the run, so the cell may live on the caller's stack |
| EngineTheorems.TestAgreesWithWait | src/array_request_manager.h:102-118 | for one request test answers false and then true for good, every status it copies is the same, and it is the one wait returns |
| EngineTests.TestAnswers | src/array_request_manager.h:102-118 | in every run a call of test answers once: false if its request is not finished at its last access, otherwise true with the request's own status unless the caller of this very call ignores it |
| EngineTests.TrueTestFillsStatus | src/mpi/mpi_interposition.cpp:93-101 | a test that answers true fills the status it was given with the one true answer the library gave for the operation |
| EngineTheorems.TestSeesCell | src/array_request_manager.h:104-108 | the load of the cell in test answers false exactly when the request has not been published |
| EngineTheorems.TestSeesFlag | src/array_request_manager.h:110-112 | the load of the flag in test answers false exactly when the request is not finished |
| EngineTheorems.WaitFindsSlot | src/array_request_manager.h:74-80 | after a true test the first load of the cell in wait finds the slot |
| EngineTheorems.WaitFindsFlag | src/array_request_manager.h:82-84 | after a true test the first load of the flag in wait finds it set |
| EngineDrain.IterationReducesWork | src/offload.h:36-60 | with no further posts every iteration strictly reduces the sum of tests still to come, whatever the sweep skips, until every operation whose post has its ticket is complete |
| EngineDrain.DrainBound | src/offload.h:34-61 | if operation i answers false c_i more times, every operation that is queued or beyond is marked done within the sum of c_i + 1 iterations; posts still on their way into the queue count in the sum |
| EngineNull.NullRequestCompletes | src/offload.h:45-55 | in every run a command without request is tested at most once, is finished by that test, and its wait returns the empty status |
| EngineWaitall.WaitallReturns | src/mpi/mpi_interposition.cpp:74-82 | in every run, whatever the other threads do meanwhile: when a thread is back from its Waitalls, every request of its arrays is released and its status is the one answer given for the command posted with it, or none where ignored |
| EngineWaitall.AddedAs | src/mpi/mpi_interposition.cpp:76-78 | in every run a request put on a thread's array stands at its place for good and is waited for with a status exactly if the caller gave one |
| EngineWaitall.WaitallFills | src/mpi/mpi_interposition.cpp:74-82 | the same from the caller's arguments: once the thread is back, each request is released, its status is the one answer for its own command if the caller gave a status to fill, and none if the caller ignored it |
| EngineWaitall.WaitsInOrder | src/mpi/mpi_interposition.cpp:76-80 | in every run the elements before the one a Waitall has come to are released |
| EngineQuiet.Quiescent | src/offload.h:83-87 | in every run, once every request has been waited for and the loop is between iterations or has ended: queue and used are empty, every flag is clear, the free chain is a permutation of 1 .. size - 1, every command has been issued |
| EngineQuiet.StopEndsLoop | src/offload.h:36-36 | after stop the loop ends at its next test and never runs again |
| EngineQuiet.RunsUntilStop | src/offload.h:77-87 | in every run the flag is set exactly as long as nobody has called stop, and the thread has left its loop only after that |
| EngineQuiet.LoopHead | src/offload.h:36-37 | the head of the loop turns to dequeue before stop and ends the loop after it |
| EngineQuiet.AppStepDefined | src/array_request_manager.h:62-118 | the next access of an application thread is always well defined: no index, INVALID included, is out of range |
| EngineQuiet.OffloadStepDefined | src/offload.h:34-61 | the same for the offload thread; acquire always has a slot to look at |
| EngineQuiet.OffloadAlwaysMoves | src/offload.h:34-61 | until it has stopped the offload thread always has a step, and it changes the state unless the thread waits for a producer that has taken its ticket and not stored |
| EngineQuiet.AwaitedProducerStores | external/atomic_queue/include/atomic_queue/atomic_queue.h:181-197 | that producer's next step is the store, it succeeds, and the wait is over |
| EngineQuiet.AppAlwaysMoves | src/array_request_manager.h:62-118 | a thread in a call always has a step, and it changes the state unless a wait spins on a request that has no slot to show or is not finished |
| EngineQuiet.ReleaseEndsAlone | src/array_request_manager.h:144-151 | from wherever it stands in release, after any number of failed compare-exchanges, a thread left alone returns from its wait within four accesses, its slot on top of the chain |
| EngineHolders.MayBeUsed | src/mpi/mpi_interposition.cpp:57-101 | in every run an idle thread may wait for, and a resting one test, any outstanding request that no call works on and no array still lists |
| OffloadEngine.OffloadEngine.constructor | src/offload.h:144-147 | builds the object in an initial state of the state machine |
| OffloadEngine.OffloadEngine.PostBegin | src/array_request_manager.h:62-66 | the invalidation of the caller's request, before the command is enqueued |
| OffloadEngine.OffloadEngine.PostTicket | src/offload.h:112-118 | enqueues the command: the push takes its ticket |
| OffloadEngine.OffloadEngine.PostStore | external/atomic_queue/include/atomic_queue/atomic_queue.h:356-359 | the push stores the command in its slot, or finds the slot taken and tries again |
| OffloadEngine.OffloadEngine.WaitLoadCell | src/array_request_manager.h:77-80 | one load of the request; INVALID spins |
| OffloadEngine.OffloadEngine.WaitLoadFlag | src/array_request_manager.h:82-84 | one load of the flag; false spins |
| OffloadEngine.OffloadEngine.WaitCopyStatus | src/array_request_manager.h:86-88 | copies the slot's status unless it is to be ignored |
| OffloadEngine.OffloadEngine.WaitClearFlag | src/array_request_manager.h:90-91 | clears the flag before the release begins |
| OffloadEngine.OffloadEngine.ReleaseLink | src/array_request_manager.h:146-148 | release of the request's slot: the store of its successor |
| OffloadEngine.OffloadEngine.ReleaseSwap | src/array_request_manager.h:147-150 | release of the request's slot: the compare-exchange; success ends the wait |
| OffloadEngine.OffloadEngine.TestLoadCell | src/array_request_manager.h:102-108 | the first load of test; INVALID answers false |
| OffloadEngine.OffloadEngine.TestLoadFlag | src/array_request_manager.h:110-112 | the second load of test; an unset flag answers false |
| OffloadEngine.OffloadEngine.TestCopyStatus | src/array_request_manager.h:114-117 | answers true, with the slot's status unless it is to be ignored; the slot stays with the request |
| OffloadEngine.OffloadEngine.DequeueCas | external/atomic_queue/include/atomic_queue/atomic_queue.h:285-285 | dequeue claims the next ticket |
| OffloadEngine.OffloadEngine.DequeueExchange | src/offload.h:37-40 | the popped command turns the loop to acquiring a slot |
| OffloadEngine.OffloadEngine.AcquireNext | src/array_request_manager.h:159-159 | acquire loads the successor |
| OffloadEngine.OffloadEngine.AcquireSwap | src/array_request_manager.h:157-176 | acquire's compare-exchange; success gives the command its slot |
| OffloadEngine.OffloadEngine.ClearDone | src/array_request_manager.h:46-46 | clears the slot's flag before the slot is shown |
| OffloadEngine.OffloadEngine.DequeueLoadHead | src/offload.h:37-59 | an empty queue turns the loop to the sweep |
| OffloadEngine.OffloadEngine.Publish | src/array_request_manager.h:48-50 | stores the slot index in the caller's request |
| OffloadEngine.OffloadEngine.CallMpi | src/offload.h:42-51 | the call sets the slot's request, which a command without request overrides with the null request |
| OffloadEngine.OffloadEngine.FirstTest | src/array_request_manager.h:179-186 | the first PMPI_Test; a true answer takes the slot off used before the flag is set |
| OffloadEngine.OffloadEngine.FirstMark | src/array_request_manager.h:187-187 | the store of the flag after the first test |
| OffloadEngine.OffloadEngine.SweepTest | src/array_request_manager.h:194-201 | one round of the sweep up to the store of the flag |
| OffloadEngine.OffloadEngine.SweepMarkDone | src/array_request_manager.h:202-202 | the store of the flag in the sweep |
| OffloadEngine.OffloadEngine.SweepEraseSlot | src/array_request_manager.h:203-204 | the erase and the iterator after it, with the skip |
| Schedule.Run | src/offload.h:34-61 | any schedule of accesses of all threads takes the object through the states of that run, so what is proved of runs holds of the object |
| Sweep.PassRemovesExactly | src/array_request_manager.h:191-206 | for every list and every pattern of answers a pass removes exactly the slots that answered true, keeps the others in order and tests only listed slots |
| Sweep.PassTests | src/array_request_manager.h:194-205 | a pass over a non-empty list tests its first element first, and if nothing answers true it tests every element once in order |
| Sweep.SkippedExactly | src/array_request_manager.h:194-204 | when the pass ends at the end of the list, an element after the first is left untested exactly when its predecessor was removed |
| Sweep.RestartsAtEnd | src/array_request_manager.h:194-204 | in the reading that starts over, the pass is the same until it has erased the last element, and exactly then goes on with a pass over what is left |
| Sweep.RoundKeeps | src/array_request_manager.h:195-205 | one round stores the status, then the flag, then erases, and keeps the invariant |
| Sweep.TestRequests | src/array_request_manager.h:191-206 | the loop terminates, tests and removes what the pass says, publishes every true answer and touches no other flag and no status of an untested slot |
| Waitall.Wait | src/mpi/mpi_interposition.cpp:57-72 | the sequential corollary: undisturbed on a complete request, answers its status and releases it, and no other request changes |
| Waitall.PushSteps | src/array_request_manager.h:144-151 | the accesses of an undisturbed release compose to putting the slot on top of the chain |
| Waitall.FindSteps | src/array_request_manager.h:74-88 | on a complete request no access of wait has to be repeated |
| Waitall.Waitall | src/mpi/mpi_interposition.cpp:74-82 | the sequential corollary of the theorem on every run: undisturbed on complete requests, one status each in the order of the array, exactly the requests of the array released |

## Left out

- The wrappers of the individual MPI calls (collectives, communicators, files, windows, point to point): one generic
  command, with or without a request of its own, stands for them.
- The MPI library: its answers are parameters, constrained only by the assumptions above.
- Weak memory orders, cache-line alignment, spin pauses and the speculative loads while spinning.
- Behaviour outside the client bound: what the offload thread does with the INVALID index after acquire has failed (the
  source marks it as to be done), and a pool or queue overrun by more requests.
- Calls outside the contract: two waits on one request, wait or test on a null request, persistent requests.
- Fairness of the scheduler: the drain bound counts iterations that do end, and the progress theorems say which step is
  due, not that it is taken.
- `AtomicQueue2`, `AtomicQueueB`, `AtomicQueueB2`, the retry decorator, the single-producer branches and the blocking
  pop: the engine does not use them.
- Thread start-up, promises and levels of initialisation, affinity, environment parsing, the benchmark and the build.
- The pool's counters that the source declares and never reads, and the debug message of acquire.
- OffloadEngine.OffloadEngine.Stop: is the store of the flag; the join that follows it is the thread standing at
  `Stopped`, for which `EngineQuiet.StopEndsLoop` and `EngineQuiet.Quiescent` speak.
- AtomicQueue.AtomicQueue.Enqueue: states the call undisturbed and with a free place; under interference and any
  waiting it is `RingFifo.RingRefinesLockedQueue` that speaks.
- AtomicQueue.AtomicQueue.Dequeue: states the call undisturbed and with the oldest element stored; likewise.
- RequestPool.RequestPool.Release: states the call undisturbed; `FreeList.ListAlwaysSound` speaks for every run.
- RequestPool.RequestPool.Acquire: states the call undisturbed; likewise.
- Sweep.TestRequests: states the loop for an undisturbed offload thread; steps of application threads in between are
  covered by the step and run theorems, not by this loop.
- Sweep.SkippedExactly: speaks of the reading in which the pass ends after the last element has been erased;
  `Sweep.RestartsAtEnd` reduces the other reading to it.
- Waitall.Wait: states the call on a request that is complete when it begins; `EngineTheorems.WaitReturnsOwnStatus`
  states every wait of every run.
- Waitall.Waitall: as Wait; `EngineWaitall.WaitallReturns` states every Waitall of every run.
- EngineDrain.DrainBound: says nothing of a post that has not taken its ticket when the count begins, as nothing makes
  it take the ticket within the count.
