/** The offload engine as an object: the shared memory, the program counters and registers of every thread, and one
    method per atomic action.  Each method does to the memory what the step of the same name does to the state. */
module OffloadEngine {
  import FreeList
  import Ring
  import opened LockedQueue
  import RoundUp
  import AtomicQueue
  import RequestPool
  import opened Engine
  import opened EngineInv

  /** What a command object carries besides its function. */
  datatype OffloadCommand = OffloadCommand(request: nat, nullRequest: bool)

  class OffloadEngine {
    const queue: AtomicQueue.AtomicQueue
    const pool: RequestPool.RequestPool
    var cells: seq<nat>                           // the callers' MPI_Request variables
    var apps: seq<AppPc>                          // program counters, one per application thread
    var batches: seq<Batch>
    var tickets: seq<nat>                         // a pushing thread's copy of head_
    var releasers: seq<FreeList.Releaser>         // a thread's registers inside release
    var commands: seq<OffloadCommand>
    var off: OffloadPc
    var consumer: Ring.Consumer                   // the offload thread's registers inside try_pop
    var acquirer: FreeList.Acquirer               // and inside acquire
    var running: bool
    ghost var state: State

    ghost predicate PoolMatches()
      reads this, queue, queue.elements, pool, pool.nexts, pool.done, pool.statuses, pool.requests
    {
      && pool.Valid() && pool.pool == state.pool && pool.used == state.used
      && pool.done[..] == state.done && pool.statuses[..] == state.statuses && pool.requests[..] == state.requests
      && releasers == state.pool.releasers && acquirer == state.pool.acquirer
    }

    ghost predicate QueueMatches()
      reads this, queue, queue.elements, pool, pool.nexts, pool.done, pool.statuses, pool.requests
    {
      && queue.Valid() && queue.ring == state.ring && consumer == state.ring.consumer
      && |tickets| == |state.ring.producers|
      && forall t :: 0 <= t < |tickets| && state.ring.producers[t].Storing? ==>
           tickets[t] == Ring.Wrap(state.ring.producers[t].ticket)
    }

    ghost predicate CommandsMatch()
      reads this
    {
      && |commands| == |state.stage| == |state.cell| == |state.nullRequest|
      && forall p :: 0 <= p < |commands| ==> commands[p] == OffloadCommand(state.cell[p], state.nullRequest[p])
    }

    ghost predicate Valid()
      reads this, queue, queue.elements, pool, pool.nexts, pool.done, pool.statuses, pool.requests
    {
      && PoolMatches() && QueueMatches() && CommandsMatch()
      && cells == state.cells && apps == state.apps && batches == state.batches
      && off == state.off && running == state.running
    }

    /** OffloadEngine and start: everything idle, the queue empty, the pool full; the cells are the callers' memory. */
    constructor (capacity: nat, elementsPerCacheLine: nat, poolSize: nat, threads: nat, callerCells: seq<nat>,
                 ghost bound: nat)
      requires 1 <= capacity <= RoundUp.MAX_CAPACITY && 1 <= poolSize <= INVALID
      requires bound <= capacity && bound < Ring.HALF && bound <= poolSize - 1
      ensures Valid() && fresh(queue) && fresh(queue.elements) && fresh(pool)
      ensures fresh(pool.nexts) && fresh(pool.done) && fresh(pool.statuses) && fresh(pool.requests)
      ensures Initial(state)
      ensures state == Start(queue.exponent, poolSize, threads, callerCells,
                             pool.statuses[..], pool.requests[..], bound)
    {
      queue := new AtomicQueue.AtomicQueue(capacity, elementsPerCacheLine, threads);
      var p := new RequestPool.RequestPool(poolSize, threads);
      pool := p;
      cells := callerCells;
      apps := seq(threads, _ => Idle);
      batches := seq(threads, _ => Batch([], 0));
      tickets := seq(threads, _ => 0);
      releasers := seq(threads, _ => FreeList.Resting);
      commands, off, consumer, acquirer, running := [], Top, Ring.Quiet, FreeList.Asleep, true;
      new;
      assert pool.done[..] == seq(poolSize, _ => false);
      StartIsInitial(queue.exponent, poolSize, threads, cells, pool.statuses[..], pool.requests[..], bound);
      state := Start(queue.exponent, poolSize, threads, cells, pool.statuses[..], pool.requests[..], bound);
    }

    // ---------------------------------------------------------------- accesses shared by several actions

    method SetDone(slot: nat, value: bool)
      requires Valid() && slot < |state.done|
      modifies this, queue, queue.elements, pool, pool.nexts, pool.done, pool.statuses, pool.requests
      ensures Valid() && state == old(state).(done := old(state.done)[slot := value])
    {
      pool.done[slot] := value;
      state := state.(done := state.done[slot := value]);
    }

    /** PMPI_Test on a slot's request: the status is stored, and a true answer nulls the request. */
    method PmpiTest(slot: nat, ghost op: nat, flag: bool, status: Status)
      requires Valid() && slot < |state.requests| && slot < |state.statuses| && op < |state.stored|
      requires op < |state.tests|
      modifies this, queue, queue.elements, pool, pool.nexts, pool.done, pool.statuses, pool.requests
      ensures Valid() && state == TestedState(old(state), slot, op, flag, status)
    {
      pool.statuses[slot] := status;
      if flag {
        pool.requests[slot] := Null;
      }
      state := TestedState(state, slot, op, flag, status);
    }

    method Exchange() returns (elem: Element)
      requires Valid() && consumer.Claimed? && |state.ring.slots| == state.ring.size > 0
      modifies this, queue, queue.elements, pool, pool.nexts, pool.done, pool.statuses, pool.requests
      ensures Valid() && state == old(state).(ring := Ring.ExchangeStep(old(state.ring)))
      ensures elem == old(state.ring.slots[Ring.SlotOf(state.ring.size, consumer.word)])
    {
      elem := queue.Exchange(consumer.word);
      if elem.Cmd? {
        consumer := Ring.Quiet;
      }
      state := state.(ring := queue.ring);
    }

    method TryAcquire(spurious: bool) returns (acquired: bool)
      requires Valid() && FreeList.Enabled(state.pool, FreeList.AcquireSwap(spurious))
      modifies this, queue, queue.elements, pool, pool.nexts, pool.done, pool.statuses, pool.requests
      ensures Valid() && acquired == FreeList.AcquireSwapStep(old(state.pool), spurious).acquirer.Asleep?
      ensures state == old(state).(pool := FreeList.AcquireSwapStep(old(state.pool), spurious),
                                   used := if acquired then [old(acquirer.seen)] + old(state.used) else old(state.used))
    {
      var slot := acquirer.seen;
      var seen;
      acquired, seen := pool.AcquireSwap(slot, acquirer.next, spurious);
      acquirer := if acquired then FreeList.Asleep else FreeList.HaveHead(seen);
      state := state.(pool := pool.pool, used := pool.used);
    }

    method TryRelease(t: nat, spurious: bool) returns (released: bool)
      requires Valid() && FreeList.Enabled(state.pool, FreeList.SwapIn(t, spurious))
      modifies this, queue, queue.elements, pool, pool.nexts, pool.done, pool.statuses, pool.requests
      ensures Valid() && state == old(state).(pool := FreeList.SwapInStep(old(state.pool), t, spurious))
      ensures released == state.pool.releasers[t].Resting?
    {
      var idx := releasers[t].idx;
      var seen;
      released, seen := pool.ReleaseSwap(t, idx, spurious);
      releasers := releasers[t := if released then FreeList.Resting else FreeList.ToLink(idx, seen)];
      state := state.(pool := pool.pool);
    }

    method BeginRelease(t: nat, slot: nat)
      requires Valid() && FreeList.Enabled(state.pool, FreeList.BeginRelease(t, slot))
      modifies this, queue, queue.elements, pool, pool.nexts, pool.done, pool.statuses, pool.requests
      ensures Valid() && state == old(state).(pool := FreeList.BeginReleaseStep(old(state.pool), t, slot))
    {
      releasers := releasers[t := FreeList.ToLoad(slot)];
      pool.pool := FreeList.BeginReleaseStep(pool.pool, t, slot);
      state := state.(pool := pool.pool);
    }

    /** used_.remove(slot) */
    method Unlist(slot: nat)
      requires Valid()
      modifies this, queue, queue.elements, pool, pool.nexts, pool.done, pool.statuses, pool.requests
      ensures Valid() && state == old(state).(used := Removed(old(state.used), slot))
    {
      pool.used := Removed(pool.used, slot);
      state := state.(used := pool.used);
    }

    /** used_.erase(it) */
    method Erase(i: nat)
      requires Valid() && i < |state.used|
      modifies this, queue, queue.elements, pool, pool.nexts, pool.done, pool.statuses, pool.requests
      ensures Valid() && state == old(state).(used := Erased(old(state.used), i))
    {
      pool.used := pool.used[..i] + pool.used[i + 1..];
      state := state.(used := pool.used);
    }

    method Goto(pc: OffloadPc)
      requires Valid()
      modifies this, queue, queue.elements, pool, pool.nexts, pool.done, pool.statuses, pool.requests
      ensures Valid() && state == old(state).(off := pc)
    {
      off := pc;
      state := state.(off := pc);
    }

    /** The loop turns to acquiring a slot for command p. */
    method Take(p: nat)
      requires Valid() && p < |state.entry|
      modifies this, queue, queue.elements, pool, pool.nexts, pool.done, pool.statuses, pool.requests
      ensures Valid() && state == Took(old(state), old(state.ring), p)
    {
      off, acquirer := Acquiring(p), FreeList.Starting;
      pool.pool := FreeList.BeginAcquireStep(pool.pool);
      state := Took(state, state.ring, p);
    }

    // ---------------------------------------------------------------- the actions

    /** OffloadEngine::post: invalidate_request on the command's cell. */
    method PostBegin(t: nat, c: nat, nul: bool)
      requires Valid() && AppEnabled(state, Engine.PostBegin(t, c, nul))
      requires Sizes(state)
      modifies this, queue, queue.elements, pool, pool.nexts, pool.done, pool.statuses, pool.requests
      ensures Valid() && state == PostBeginStep(old(state), t, c, nul)
    {
      cells := cells[c := INVALID];
      apps := apps[t := Invalidated(|commands|)];
      commands := commands + [OffloadCommand(c, nul)];
      state := PostBeginStep(state, t, c, nul);
    }

    method PostTicket(t: nat)
      requires Valid() && AppEnabled(state, Engine.PostTicket(t))
      modifies this, queue, queue.elements, pool, pool.nexts, pool.done, pool.statuses, pool.requests
      ensures Valid() && state == PostTicketStep(old(state), t)
    {
      var p := apps[t].post;
      var ticket := queue.FetchAdd(t, p);
      tickets := tickets[t := ticket];
      apps := apps[t := Enqueuing(p)];
      state := PostTicketStep(state, t);
    }

    method PostStore(t: nat)
      requires Valid() && AppEnabled(state, Engine.PostStore(t))
      requires PostingOk(state)
      modifies this, queue, queue.elements, pool, pool.nexts, pool.done, pool.statuses, pool.requests
      ensures Valid() && state == PostStoreStep(old(state), t)
    {
      var stored := queue.TryStore(t, apps[t].post, tickets[t]);
      if stored {
        apps := apps[t := Idle];
      }
      state := PostStoreStep(state, t);
    }

    method WaitAdd(t: nat, p: nat, ignore: bool)
      requires Valid() && AppEnabled(state, Engine.WaitAdd(t, p, ignore))
      modifies this, queue, queue.elements, pool, pool.nexts, pool.done, pool.statuses, pool.requests
      ensures Valid() && state == WaitAddStep(old(state), t, p, ignore)
    {
      var b := batches[t];
      batches := batches[t := Batch(b.items + [Item(p, ignore)], b.next)];
      state := WaitAddStep(state, t, p, ignore);
    }

    method WaitNext(t: nat)
      requires Valid() && AppEnabled(state, Engine.WaitNext(t))
      modifies this, queue, queue.elements, pool, pool.nexts, pool.done, pool.statuses, pool.requests
      ensures Valid() && state == WaitNextStep(old(state), t)
    {
      var b := batches[t];
      var item := b.items[b.next];
      batches := batches[t := Batch(b.items, b.next + 1)];
      apps := apps[t := WaitCell(item.post, item.ignore)];
      state := WaitNextStep(state, t);
    }

    method WaitLoadCell(t: nat)
      requires Valid() && AppEnabled(state, Engine.WaitLoadCell(t))
      modifies this, queue, queue.elements, pool, pool.nexts, pool.done, pool.statuses, pool.requests
      ensures Valid() && state == WaitLoadCellStep(old(state), t)
    {
      var a := apps[t];
      var idx := cells[commands[a.post].request];
      if idx != INVALID {
        apps := apps[t := WaitFlag(a.post, idx, a.ignore)];
      }
      state := WaitLoadCellStep(state, t);
    }

    method WaitLoadFlag(t: nat)
      requires Valid() && AppEnabled(state, Engine.WaitLoadFlag(t))
      modifies this, queue, queue.elements, pool, pool.nexts, pool.done, pool.statuses, pool.requests
      ensures Valid() && state == WaitLoadFlagStep(old(state), t)
    {
      var a := apps[t];
      if pool.done[a.slot] {
        apps := apps[t := WaitCopy(a.post, a.slot, a.ignore)];
      }
      state := WaitLoadFlagStep(state, t);
    }

    method WaitCopyStatus(t: nat)
      requires Valid() && AppEnabled(state, Engine.WaitCopyStatus(t))
      modifies this, queue, queue.elements, pool, pool.nexts, pool.done, pool.statuses, pool.requests
      ensures Valid() && state == WaitCopyStatusStep(old(state), t)
    {
      var a := apps[t];
      apps := apps[t := WaitClear(a.post, a.slot, if a.ignore then None else Some(pool.statuses[a.slot]))];
      state := WaitCopyStatusStep(state, t);
    }

    method WaitClearFlag(t: nat)
      requires Valid() && AppEnabled(state, Engine.WaitClearFlag(t))
      modifies this, queue, queue.elements, pool, pool.nexts, pool.done, pool.statuses, pool.requests
      ensures Valid() && state == WaitClearFlagStep(old(state), t)
    {
      ghost var s0 := state;
      var a := apps[t];
      SetDone(a.slot, false);
      BeginRelease(t, a.slot);
      apps := apps[t := Releasing(a.post, a.slot, a.copied)];
      state := WaitClearFlagStep(s0, t);
    }

    method ReleaseLoad(t: nat)
      requires Valid() && AppEnabled(state, Engine.ReleaseLoad(t))
      modifies this, queue, queue.elements, pool, pool.nexts, pool.done, pool.statuses, pool.requests
      ensures Valid() && state == ReleaseLoadStep(old(state), t)
    {
      var seen := pool.ReleaseLoad(t);
      releasers := releasers[t := FreeList.ToLink(releasers[t].idx, seen)];
      state := ReleaseLoadStep(state, t);
    }

    method ReleaseLink(t: nat)
      requires Valid() && AppEnabled(state, Engine.ReleaseLink(t))
      modifies this, queue, queue.elements, pool, pool.nexts, pool.done, pool.statuses, pool.requests
      ensures Valid() && state == ReleaseLinkStep(old(state), t)
    {
      var r := releasers[t];
      pool.ReleaseLink(t, r.idx, r.seen);
      releasers := releasers[t := FreeList.ToSwap(r.idx)];
      state := ReleaseLinkStep(state, t);
    }

    method ReleaseSwap(t: nat, spurious: bool)
      requires Valid() && AppEnabled(state, Engine.ReleaseSwap(t, spurious))
      modifies this, queue, queue.elements, pool, pool.nexts, pool.done, pool.statuses, pool.requests
      ensures Valid() && state == ReleaseSwapStep(old(state), t, spurious)
    {
      ghost var s0 := state;
      var released := TryRelease(t, spurious);
      if released {
        apps := apps[t := Idle];
      }
      state := ReleaseSwapStep(s0, t, spurious);
    }

    method TestBegin(t: nat, p: nat, ignore: bool)
      requires Valid() && AppEnabled(state, Engine.TestBegin(t, p, ignore))
      modifies this, queue, queue.elements, pool, pool.nexts, pool.done, pool.statuses, pool.requests
      ensures Valid() && state == TestBeginStep(old(state), t, p, ignore)
    {
      apps := apps[t := TestCell(p, ignore)];
      state := TestBeginStep(state, t, p, ignore);
    }

    /** An answer ends thread t's call of test and is what the history keeps for its request. */
    ghost predicate Answers(answer: Option<TestAnswer>, t: nat, p: nat)
      reads this
    {
      && t < |state.apps| && p < |state.answers| && (answer.Some? <==> state.apps[t].Idle?)
      && var a := state.answers[p];
         answer.Some? ==> a != [] && a[|a| - 1] == answer.value
    }

    /** The first load of MPI_Test. */
    method TestLoadCell(t: nat) returns (answer: Option<TestAnswer>)
      requires Valid() && AppEnabled(state, Engine.TestLoadCell(t))
      requires Sizes(state)
      modifies this, queue, queue.elements, pool, pool.nexts, pool.done, pool.statuses, pool.requests
      ensures Valid() && state == TestLoadCellStep(old(state), t)
      ensures Answers(answer, t, old(apps[t].post))
    {
      var p := apps[t].post;
      var idx := cells[commands[p].request];
      if idx == INVALID {
        apps := apps[t := Idle];
        answer := Some(No);
      } else {
        apps := apps[t := TestFlag(p, idx, apps[t].ignore)];
        answer := None;
      }
      state := TestLoadCellStep(state, t);
    }

    method TestLoadFlag(t: nat) returns (answer: Option<TestAnswer>)
      requires Valid() && AppEnabled(state, Engine.TestLoadFlag(t))
      modifies this, queue, queue.elements, pool, pool.nexts, pool.done, pool.statuses, pool.requests
      ensures Valid() && state == TestLoadFlagStep(old(state), t)
      ensures Answers(answer, t, old(apps[t].post))
    {
      var a := apps[t];
      if pool.done[a.slot] {
        apps := apps[t := TestCopy(a.post, a.slot, a.ignore)];
        answer := None;
      } else {
        apps := apps[t := Idle];
        answer := Some(No);
      }
      state := TestLoadFlagStep(state, t);
    }

    method TestCopyStatus(t: nat) returns (answer: Option<TestAnswer>)
      requires Valid() && AppEnabled(state, Engine.TestCopyStatus(t))
      modifies this, queue, queue.elements, pool, pool.nexts, pool.done, pool.statuses, pool.requests
      ensures Valid() && state == TestCopyStatusStep(old(state), t)
      ensures Answers(answer, t, old(apps[t].post))
    {
      answer := Some(Yes(if apps[t].ignore then None else Some(pool.statuses[apps[t].slot])));
      apps := apps[t := Idle];
      state := TestCopyStatusStep(state, t);
    }

    method Overwrite(c: nat, value: nat)
      requires Valid() && AppEnabled(state, Engine.Overwrite(c, value))
      modifies this, queue, queue.elements, pool, pool.nexts, pool.done, pool.statuses, pool.requests
      ensures Valid() && state == AppNext(old(state), Engine.Overwrite(c, value))
    {
      cells := cells[c := value];
      state := AppNext(state, Engine.Overwrite(c, value));
    }

    /** OffloadThread::stop, up to the join. */
    method Stop()
      requires Valid() && AppEnabled(state, Engine.Stop)
      modifies this, queue, queue.elements, pool, pool.nexts, pool.done, pool.statuses, pool.requests
      ensures Valid() && state == AppNext(old(state), Engine.Stop)
    {
      running := false;
      state := AppNext(state, Engine.Stop);
    }

    /** The head of poll_and_test's loop. */
    method Loop()
      requires Valid() && OffloadEnabled(state, Engine.Loop)
      modifies this, queue, queue.elements, pool, pool.nexts, pool.done, pool.statuses, pool.requests
      ensures Valid() && state == LoopStep(old(state))
    {
      off := if running then Dequeuing else Stopped;
      state := LoopStep(state);
    }

    method DequeueLoadTail()
      requires Valid() && OffloadEnabled(state, Engine.DequeueLoadTail)
      modifies this, queue, queue.elements, pool, pool.nexts, pool.done, pool.statuses, pool.requests
      ensures Valid() && state == DequeueLoadTailStep(old(state))
    {
      var word := queue.LoadTail();
      consumer := Ring.LoadedTail(word);
      state := DequeueLoadTailStep(state);
    }

    method DequeueLoadHead()
      requires Valid() && OffloadEnabled(state, Engine.DequeueLoadHead)
      modifies this, queue, queue.elements, pool, pool.nexts, pool.done, pool.statuses, pool.requests
      ensures Valid() && state == DequeueLoadHeadStep(old(state))
    {
      var found := queue.LoadHead(consumer.word);
      if found {
        consumer := Ring.FoundWork(consumer.word);
      } else {
        consumer, off := Ring.Quiet, Sweeping(0);
      }
      state := DequeueLoadHeadStep(state);
    }

    method DequeueCas()
      requires Valid() && OffloadEnabled(state, Engine.DequeueCas)
      modifies this, queue, queue.elements, pool, pool.nexts, pool.done, pool.statuses, pool.requests
      ensures Valid() && state == DequeueCasStep(old(state))
    {
      var claimed, word := queue.CasTail(consumer.word);
      consumer := if claimed then Ring.Claimed(word) else Ring.LoadedTail(word);
      state := DequeueCasStep(state);
    }

    method DequeueExchange()
      requires Valid() && OffloadEnabled(state, Engine.DequeueExchange)
      modifies this, queue, queue.elements, pool, pool.nexts, pool.done, pool.statuses, pool.requests
      ensures Valid() && state == DequeueExchangeStep(old(state))
    {
      var elem := Exchange();
      if elem.Cmd? {
        Take(elem.id);
      }
    }

    method AcquireLoad()
      requires Valid() && OffloadEnabled(state, Engine.AcquireLoad)
      modifies this, queue, queue.elements, pool, pool.nexts, pool.done, pool.statuses, pool.requests
      ensures Valid() && state == AcquireLoadStep(old(state))
    {
      var seen := pool.AcquireLoad();
      acquirer := FreeList.HaveHead(seen);
      state := AcquireLoadStep(state);
    }

    method AcquireNext()
      requires Valid() && OffloadEnabled(state, Engine.AcquireNext)
      modifies this, queue, queue.elements, pool, pool.nexts, pool.done, pool.statuses, pool.requests
      ensures Valid() && state == AcquireNextStep(old(state))
    {
      var next := pool.AcquireNext(acquirer.seen);
      acquirer := FreeList.HaveNext(acquirer.seen, next);
      state := AcquireNextStep(state);
    }

    method AcquireSwap(spurious: bool)
      requires Valid() && OffloadEnabled(state, Engine.AcquireSwap(spurious))
      requires Sizes(state)
      modifies this, queue, queue.elements, pool, pool.nexts, pool.done, pool.statuses, pool.requests
      ensures Valid() && state == AcquireSwapStep(old(state), spurious)
    {
      ghost var s0 := state;
      var slot := acquirer.seen;
      var acquired := TryAcquire(spurious);
      if acquired {
        off := Clearing(off.post, slot);
      }
      state := AcquireSwapStep(s0, spurious);
    }

    method ClearDone()
      requires Valid() && OffloadEnabled(state, Engine.ClearDone)
      modifies this, queue, queue.elements, pool, pool.nexts, pool.done, pool.statuses, pool.requests
      ensures Valid() && state == ClearDoneStep(old(state))
    {
      ghost var s0 := state;
      SetDone(off.slot, false);
      off := Publishing(off.post, off.slot);
      state := ClearDoneStep(s0);
    }

    /** The slot index is returned in the caller's request. */
    method Publish()
      requires Valid() && OffloadEnabled(state, Engine.Publish)
      modifies this, queue, queue.elements, pool, pool.nexts, pool.done, pool.statuses, pool.requests
      ensures Valid() && state == PublishStep(old(state))
    {
      cells := cells[commands[off.post].request := off.slot];
      off := Calling(off.post, off.slot);
      state := PublishStep(state);
    }

    /** The command runs and the library sets the request; calls without one leave MPI_REQUEST_NULL. */
    method CallMpi(request: Request)
      requires Valid() && OffloadEnabled(state, Engine.CallMpi(request))
      modifies this, queue, queue.elements, pool, pool.nexts, pool.done, pool.statuses, pool.requests
      ensures Valid() && state == CallMpiStep(old(state), request)
    {
      pool.requests[off.slot] := if commands[off.post].nullRequest then Null else request;
      off := Testing(off.post, off.slot);
      state := CallMpiStep(state, request);
    }

    /** test_request: used_.remove precedes the store of done_. */
    method FirstTest(flag: bool, status: Status)
      requires Valid() && OffloadEnabled(state, Engine.FirstTest(flag, status))
      modifies this, queue, queue.elements, pool, pool.nexts, pool.done, pool.statuses, pool.requests
      ensures Valid() && state == FirstTestStep(old(state), flag, status)
    {
      var slot := off.slot;
      PmpiTest(slot, if state.requests[slot].Active? then state.requests[slot].op else off.post, flag, status);
      if flag {
        Unlist(slot);
      }
      off := if flag then Marking(off.post, slot) else Top;
      state := state.(off := off);
    }

    method FirstMark()
      requires Valid() && OffloadEnabled(state, Engine.FirstMark)
      modifies this, queue, queue.elements, pool, pool.nexts, pool.done, pool.statuses, pool.requests
      ensures Valid() && state == FirstMarkStep(old(state))
    {
      ghost var s0 := state;
      SetDone(off.slot, true);
      off := Top;
      state := FirstMarkStep(s0);
    }

    /** One round of test_requests' loop up to the store of done_. */
    method SweepTest(flag: bool, status: Status)
      requires Valid() && OffloadEnabled(state, Engine.SweepTest(flag, status))
      modifies this, queue, queue.elements, pool, pool.nexts, pool.done, pool.statuses, pool.requests
      ensures Valid() && state == SweepTestStep(old(state), flag, status)
    {
      var i := off.pos;
      if i >= |pool.used| {
        Goto(Top);
      } else if pool.requests[pool.used[i]].Null? {
        Goto(Sweeping(i + 1));
      } else {
        PmpiTest(pool.used[i], state.requests[pool.used[i]].op, flag, status);
        Goto(if flag then SweepMark(i) else Sweeping(i + 1));
      }
    }

    method SweepMarkDone()
      requires Valid() && OffloadEnabled(state, Engine.SweepMarkDone)
      modifies this, queue, queue.elements, pool, pool.nexts, pool.done, pool.statuses, pool.requests
      ensures Valid() && state == SweepMarkDoneStep(old(state))
    {
      ghost var s0 := state;
      SetDone(pool.used[off.pos], true);
      off := SweepErase(off.pos);
      state := SweepMarkDoneStep(s0);
    }

    method SweepEraseSlot(restart: bool)
      requires Valid() && OffloadEnabled(state, Engine.SweepEraseSlot(restart))
      modifies this, queue, queue.elements, pool, pool.nexts, pool.done, pool.statuses, pool.requests
      ensures Valid() && state == SweepEraseSlotStep(old(state), restart)
    {
      var i := off.pos;
      Erase(i);
      Goto(if i < |pool.used| then Sweeping(i + 1) else if restart && pool.used != [] then Sweeping(0) else Top);
    }
  }
}
