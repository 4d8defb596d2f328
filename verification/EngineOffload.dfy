/** Every step of the offload thread keeps the engine's invariant. */
module EngineOffload {
  import FreeList
  import RingFifo
  import Ring
  import opened Engine
  import opened EngineInv
  import opened EngineBound

  lemma LoopKeeps(s: State)
    requires Sound(s) && s.off.Top?
    ensures Sound(LoopStep(s))
  {
    Open(s);
    Close(LoopStep(s));
  }

  lemma DequeueLoadTailKeeps(s: State)
    requires Sound(s) && OffloadEnabled(s, DequeueLoadTail)
    ensures Sound(DequeueLoadTailStep(s))
  {
    Open(s);
    RingFifo.NextKeeps(s.ring, Ring.LoadTail);
    Close(DequeueLoadTailStep(s));
  }

  /** The consumer may move inside try_pop, or leave it for the sweep, without taking a ticket. */
  lemma MoveRingKeeps(s: State, ring: Ring.Ring, off: OffloadPc)
    requires Sound(s) && Moved(s.ring, ring)
    requires s.off.Dequeuing? && (off.Dequeuing? || (off == Sweeping(0) && ring.consumer.Quiet?))
    ensures Sound(s.(ring := ring, off := off))
  {
    Open(s);
    Close(s.(ring := ring, off := off));
  }

  /** The consumer's tests and its claim of a ticket take nothing out of the ring. */
  ghost predicate Moved(r: Ring.Ring, r': Ring.Ring)
  {
    RingFifo.Inv(r') && r'.log == r.log && r'.producers == r.producers && r'.size == r.size
      && RingFifo.Taken(r') == RingFifo.Taken(r)
  }

  lemma LoadHeadMoves(r: Ring.Ring)
    requires RingFifo.Inv(r) && r.consumer.LoadedTail?
    ensures Moved(r, Ring.LoadHeadStep(r))
  {
    RingFifo.LoadHeadKeeps(r);
  }

  lemma CasMoves(r: Ring.Ring)
    requires RingFifo.Inv(r) && r.consumer.FoundWork?
    ensures Moved(r, Ring.CasTailStep(r))
  {
    RingFifo.CasTailKeeps(r);
  }

  lemma RingSound(s: State)
    requires Sound(s)
    ensures RingFifo.Inv(s.ring)
  {
    Open(s);
  }

  lemma DequeueLoadHeadKeeps(s: State)
    requires Sound(s) && OffloadEnabled(s, DequeueLoadHead)
    ensures Sound(DequeueLoadHeadStep(s))
  {
    RingSound(s);
    LoadHeadMoves(s.ring);
    var ring := Ring.LoadHeadStep(s.ring);
    MoveRingKeeps(s, ring, if ring.consumer.Quiet? then Sweeping(0) else s.off);
  }

  lemma DequeueCasKeeps(s: State)
    requires Sound(s) && OffloadEnabled(s, DequeueCas)
    ensures Sound(DequeueCasStep(s))
  {
    var ring := Ring.CasTailStep(s.ring);
    RingSound(s);
    CasMoves(s.ring);
    assert DequeueCasStep(s) == s.(ring := ring, off := s.off);
    MoveRingKeeps(s, ring, s.off);
  }

  /** What the exchange yields under the invariant: nothing yet, or the command of the oldest untaken ticket. */
  lemma ExchangeTakes(s: State)
    requires BaseOk(s) && QueueOk(s) && s.off.Dequeuing? && s.ring.consumer.Claimed?
    ensures var r, r' := s.ring, Ring.ExchangeStep(s.ring);
            var e := r.slots[Ring.SlotOf(r.size, r.consumer.word)];
            && RingFifo.Inv(r') && r'.log == r.log && r'.producers == r.producers && r'.size == r.size
            && (e.Cmd? ==> e.id == r.log[r.tail - 1].cmd && e.id < |s.entry| && s.entry[e.id] == Queued(r.tail - 1)
                           && r'.consumer.Quiet? && r'.tail == r.tail)
            && (e.NullPtr? ==> r' == r)
            && (e.Cmd? ==> RingFifo.Taken(r') == RingFifo.Taken(r) + 1 && 0 <= RingFifo.Taken(r) < |r.log|
                           && r.log[RingFifo.Taken(r)].cmd == e.id)
  {
    RingFifo.ExchangeKeeps(s.ring);
    RingFifo.ExchangeDelivers(s.ring);
  }

  lemma TookQueue(s: State, ring: Ring.Ring, p: nat)
    requires Sizes(s) && QueuePart(s) && InHandOk(s) && s.off.Dequeuing?
    requires ring.log == s.ring.log && ring.producers == s.ring.producers
    requires RingFifo.Taken(ring) == RingFifo.Taken(s.ring) + 1
    requires 0 <= RingFifo.Taken(s.ring) < |s.ring.log| && s.ring.log[RingFifo.Taken(s.ring)].cmd == p && p < |s.entry|
    ensures QueuePart(Took(s, ring, p))
  {
  }

  lemma TookOffload(s: State, ring: Ring.Ring, p: nat)
    requires Sizes(s) && OffloadPart(s) && s.off.Dequeuing? && ring.consumer.Quiet? && p < |s.entry|
    requires s.entry[p].Queued?
    ensures OffloadPart(Took(s, ring, p))
  {
  }

  lemma TookRest(s: State, ring: Ring.Ring, p: nat)
    requires BaseOk(s) && SlotPart(s) && CallPart(s) && RingFifo.Inv(ring) && ring.producers == s.ring.producers
    requires ring.size == s.ring.size
    requires p < |s.entry|
    ensures BaseOk(Took(s, ring, p)) && SlotPart(Took(s, ring, p)) && CallPart(Took(s, ring, p))
  {
    FreeList.AcquireStepsKeep(s.pool.(acquirer := FreeList.Asleep), FreeList.BeginAcquire);
  }

  lemma TookKeeps(s: State, ring: Ring.Ring, p: nat)
    requires Sound(s) && s.off.Dequeuing? && RingFifo.Inv(ring) && ring.consumer.Quiet? && p < |s.entry|
    requires ring.log == s.ring.log && ring.producers == s.ring.producers && ring.size == s.ring.size
    requires RingFifo.Taken(ring) == RingFifo.Taken(s.ring) + 1 && s.entry[p].Queued?
    requires 0 <= RingFifo.Taken(s.ring) < |s.ring.log| && s.ring.log[RingFifo.Taken(s.ring)].cmd == p
    ensures Sound(Took(s, ring, p))
  {
    Open(s);
    TookQueue(s, ring, p);
    TookOffload(s, ring, p);
    TookRest(s, ring, p);
    Close(Took(s, ring, p));
  }

  lemma ExchangeFits(s: State)
    requires Sound(s) && OffloadEnabled(s, DequeueExchange)
    ensures var r, ring := s.ring, Ring.ExchangeStep(s.ring);
            var e := r.slots[Ring.SlotOf(r.size, r.consumer.word)];
            e.Cmd? ==>
              && RingFifo.Inv(ring) && ring.consumer.Quiet? && s.entry[e.id].Queued?
              && ring.log == r.log && ring.producers == r.producers && ring.size == r.size
              && RingFifo.Taken(ring) == RingFifo.Taken(r) + 1
              && 0 <= RingFifo.Taken(r) < |r.log| && r.log[RingFifo.Taken(r)].cmd == e.id
  {
    Open(s);
    ExchangeTakes(s);
  }

  lemma DequeueExchangeKeeps(s: State)
    requires Sound(s) && OffloadEnabled(s, DequeueExchange)
    ensures Sound(DequeueExchangeStep(s))
  {
    ExchangeFits(s);
    var r := s.ring;
    var e := r.slots[Ring.SlotOf(r.size, r.consumer.word)];
    if e.Cmd? { TookKeeps(s, Ring.ExchangeStep(r), e.id); }
  }

  /** The acquirer may move inside acquire as long as it has not read an empty list. */
  lemma MovePoolKeeps(s: State, pool: FreeList.Pool)
    requires Sound(s) && FreeList.Inv(pool) && s.off.Acquiring? && !pool.acquirer.Asleep?
    requires pool.acquirer != FreeList.HaveHead(INVALID)
    requires pool.place == s.pool.place && pool.releasers == s.pool.releasers && pool.size == s.pool.size
    ensures Sound(s.(pool := pool))
  {
    Open(s);
    Close(s.(pool := pool));
  }

  /** Under the bound the list is never read empty. */
  lemma AcquireLoadKeeps(s: State)
    requires Sound(s) && OffloadEnabled(s, AcquireLoad)
    ensures Sound(AcquireLoadStep(s))
  {
    Open(s);
    SlotAvailable(s);
    FreeList.AcquireStepsKeep(s.pool, FreeList.AcquireLoad);
    MovePoolKeeps(s, FreeList.AcquireLoadStep(s.pool));
  }

  lemma AcquireNextKeeps(s: State)
    requires Sound(s) && OffloadEnabled(s, AcquireNext)
    ensures Sound(AcquireNextStep(s))
  {
    Open(s);
    FreeList.AcquireStepsKeep(s.pool, FreeList.AcquireNext);
    MovePoolKeeps(s, FreeList.AcquireNextStep(s.pool));
  }

  lemma AcquiredQueue(s: State, pool: FreeList.Pool, slot: nat)
    requires Sizes(s) && SlotsOk(s) && InHandOk(s) && QueuePart(s)
    requires s.off.Acquiring? && slot < |s.pool.place| && s.pool.place[slot].Free?
    requires pool.place == s.pool.place[slot := FreeList.Out]
    ensures QueuePart(Acquired(s, pool, slot))
  {
  }

  lemma AcquiredSlots(s: State, pool: FreeList.Pool, slot: nat)
    requires Sizes(s) && SlotsOk(s) && InHandOk(s) && FlagsOk(s)
    requires s.off.Acquiring? && slot < |s.pool.place| && s.pool.place[slot].Free?
    requires pool.place == s.pool.place[slot := FreeList.Out]
    ensures SlotsOk(Acquired(s, pool, slot))
    ensures FlagsOk(Acquired(s, pool, slot))
  {
  }

  lemma AcquiredCells(s: State, pool: FreeList.Pool, slot: nat)
    requires Sizes(s) && SlotsOk(s) && InHandOk(s) && CellsOk(s) && LiveOk(s) && WritesOk(s) && pool.size == s.pool.size
    requires s.off.Acquiring? && slot < |s.pool.place| && s.pool.place[slot].Free?
    requires pool.place == s.pool.place[slot := FreeList.Out]
    ensures CellsOk(Acquired(s, pool, slot))
    ensures LiveOk(Acquired(s, pool, slot))
    ensures WritesOk(Acquired(s, pool, slot))
  {
  }

  lemma AcquiredCalls(s: State, pool: FreeList.Pool, slot: nat)
    requires Sizes(s) && SlotsOk(s) && InHandOk(s) && CallPart(s) && pool.releasers == s.pool.releasers
    requires s.off.Acquiring? && slot < |s.pool.place| && s.pool.place[slot].Free?
    requires pool.place == s.pool.place[slot := FreeList.Out]
    ensures CallPart(Acquired(s, pool, slot))
  {
  }

  lemma AcquiredInHand(s: State, pool: FreeList.Pool, slot: nat)
    requires Sizes(s) && SlotsOk(s) && InHandOk(s) && OffloadOk(s) && pool.acquirer.Asleep?
    requires s.off.Acquiring? && slot < |s.pool.place| && s.pool.place[slot].Free?
    requires pool.place == s.pool.place[slot := FreeList.Out]
    ensures OffloadOk(Acquired(s, pool, slot))
    ensures InHandOk(Acquired(s, pool, slot))
  {
  }

  lemma AcquiredUsed(s: State, pool: FreeList.Pool, slot: nat)
    requires Sizes(s) && SlotsOk(s) && InHandOk(s) && UsedOk(s)
    requires s.off.Acquiring? && slot < |s.pool.place| && s.pool.place[slot].Free?
    requires pool.place == s.pool.place[slot := FreeList.Out]
    ensures UsedOk(Acquired(s, pool, slot))
  {
    PushedList(s.used, slot);
  }

  lemma AcquiredMarks(s: State, pool: FreeList.Pool, slot: nat)
    requires Sizes(s) && SlotsOk(s) && InHandOk(s) && UsedOk(s) && RequestsOk(s) && MarksOk(s)
    requires s.off.Acquiring? && slot < |s.pool.place| && s.pool.place[slot].Free?
    requires pool.place == s.pool.place[slot := FreeList.Out]
    ensures RequestsOk(Acquired(s, pool, slot))
    ensures MarksOk(Acquired(s, pool, slot))
  {
    PushedList(s.used, slot);
  }

  lemma AcquireSwapPool(p: FreeList.Pool, spurious: bool)
    requires FreeList.Inv(p) && FreeList.Enabled(p, FreeList.AcquireSwap(spurious))
    ensures var p', x := FreeList.AcquireSwapStep(p, spurious), p.acquirer.seen;
            && FreeList.Inv(p') && p'.releasers == p.releasers && p'.size == p.size
            && if p'.acquirer.Asleep? then p.place[x].Free? && p'.place == p.place[x := FreeList.Out]
               else p'.place == p.place && p'.acquirer == FreeList.HaveHead(p.head)
  {
    FreeList.AcquireSwapKeeps(p, spurious);
  }

  /** A successful acquire makes the slot the taken post's own. */
  lemma AcquireSwapKeeps(s: State, spurious: bool)
    requires Sound(s) && OffloadEnabled(s, AcquireSwap(spurious))
    ensures Sound(AcquireSwapStep(s, spurious))
  {
    Open(s);
    var pool, slot := FreeList.AcquireSwapStep(s.pool, spurious), s.pool.acquirer.seen;
    AcquireSwapPool(s.pool, spurious);
    SlotAvailable(s);
    if pool.acquirer.Asleep? {
      AcquiredParts(s, pool, slot);
      Close(Acquired(s, pool, slot));
    } else {
      MovePoolKeeps(s, pool);
    }
  }

  lemma AcquiredParts(s: State, pool: FreeList.Pool, slot: nat)
    requires Inv(s) && pool.releasers == s.pool.releasers && pool.size == s.pool.size && pool.acquirer.Asleep?
    requires s.off.Acquiring? && slot < |s.pool.place| && s.pool.place[slot].Free?
    requires pool.place == s.pool.place[slot := FreeList.Out]
    ensures var s' := Acquired(s, pool, slot); QueuePart(s') && SlotPart(s') && CallPart(s') && OffloadPart(s')
  {
    AcquiredQueue(s, pool, slot);
    AcquiredSlots(s, pool, slot);
    AcquiredCells(s, pool, slot);
    AcquiredCalls(s, pool, slot);
    AcquiredInHand(s, pool, slot);
    AcquiredUsed(s, pool, slot);
    AcquiredMarks(s, pool, slot);
  }

  /** The flag of a fresh slot is already clear. */
  lemma ClearDoneKeeps(s: State)
    requires Sound(s) && OffloadEnabled(s, ClearDone)
    ensures Sound(ClearDoneStep(s))
  {
    Open(s);
    assert s.owner[s.off.slot] == s.off.post;
    assert s.done[s.off.slot := false] == s.done;
    Close(ClearDoneStep(s));
  }

  lemma PublishCells(s: State)
    requires Sizes(s) && CellsOk(s) && InHandOk(s) && OffloadEnabled(s, Publish)
    ensures CellsOk(PublishStep(s))
  {
  }

  lemma PublishSlots(s: State)
    requires Sizes(s) && FreeList.PlaceInv(s.pool) && SlotsOk(s) && FlagsOk(s) && LiveOk(s) && WritesOk(s)
    requires InHandOk(s) && OffloadEnabled(s, Publish)
    ensures SlotsOk(PublishStep(s))
    ensures FlagsOk(PublishStep(s))
    ensures LiveOk(PublishStep(s))
    ensures WritesOk(PublishStep(s))
  {
  }

  lemma PublishCalls(s: State)
    requires Sizes(s) && CallPart(s) && InHandOk(s) && OffloadEnabled(s, Publish)
    ensures CallPart(PublishStep(s))
  {
  }

  lemma PublishOffload(s: State)
    requires Sizes(s) && OffloadPart(s) && OffloadEnabled(s, Publish)
    ensures OffloadPart(PublishStep(s))
  {
  }

  /** The cell goes from INVALID to the slot, once. */
  lemma PublishKeeps(s: State)
    requires Sound(s) && OffloadEnabled(s, Publish)
    ensures Sound(PublishStep(s))
  {
    Open(s);
    PublishCells(s);
    PublishSlots(s);
    PublishCalls(s);
    PublishOffload(s);
    Close(PublishStep(s));
  }

  lemma CallMpiQueue(s: State, request: Request)
    requires Sizes(s) && QueuePart(s) && InHandOk(s) && OffloadEnabled(s, CallMpi(request))
    ensures QueuePart(CallMpiStep(s, request))
  {
  }

  lemma CallMpiOffload(s: State, request: Request)
    requires Sizes(s) && OffloadPart(s) && OffloadEnabled(s, CallMpi(request))
    ensures OffloadPart(CallMpiStep(s, request))
  {
  }

  lemma CallMpiKeeps(s: State, request: Request)
    requires Sound(s) && OffloadEnabled(s, CallMpi(request))
    ensures Sound(CallMpiStep(s, request))
  {
    Open(s);
    CallMpiQueue(s, request);
    CallMpiOffload(s, request);
    Close(CallMpiStep(s, request));
  }

  /** The handle tested right after the call is the post's own or null. */
  lemma FirstOp(s: State)
    requires Sizes(s) && InHandOk(s) && RequestsOk(s) && s.off.Testing?
    ensures s.off.post < |s.stage| && s.stage[s.off.post] == Published(s.off.slot)
    ensures s.off.slot < |s.requests| && (s.requests[s.off.slot].Active? ==> s.requests[s.off.slot].op == s.off.post)
  {
  }

  lemma TestedFlags(s: State, slot: nat, op: nat, flag: bool, status: Status)
    requires Sizes(s) && SlotsOk(s) && FlagsOk(s) && slot < |s.requests| && op < |s.stage|
    requires s.stage[op] == Published(slot)
    ensures FlagsOk(TestedState(s, slot, op, flag, status))
  {
  }

  lemma TestedCalls(s: State, slot: nat, op: nat, flag: bool, status: Status)
    requires Sizes(s) && SlotsOk(s) && AppsOk(s) && StoredOk(s) && AnswersOk(s) && slot < |s.requests| && op < |s.stage|
    requires s.stage[op] == Published(slot)
    ensures AppsOk(TestedState(s, slot, op, flag, status))
    ensures StoredOk(TestedState(s, slot, op, flag, status))
    ensures AnswersOk(TestedState(s, slot, op, flag, status))
  {
    assert forall a: AppPc :: Knows(a, s.stage[op], s.stored[op], s.wants[op]) ==>
      Knows(a, s.stage[op], if flag then Some(status) else s.stored[op], s.wants[op]);
  }

  lemma FirstTestUsed(s: State, flag: bool, status: Status)
    requires Sizes(s) && SlotsOk(s) && InHandOk(s) && UsedOk(s) && RequestsOk(s)
    requires OffloadEnabled(s, FirstTest(flag, status))
    ensures UsedOk(FirstTestStep(s, flag, status))
  {
    FirstOp(s);
    RemovedList(s.used, s.off.slot);
  }

  lemma FirstTestRequests(s: State, flag: bool, status: Status)
    requires Sizes(s) && SlotsOk(s) && InHandOk(s) && UsedOk(s) && RequestsOk(s)
    requires OffloadEnabled(s, FirstTest(flag, status))
    ensures RequestsOk(FirstTestStep(s, flag, status))
  {
    FirstOp(s);
    RemovedList(s.used, s.off.slot);
  }

  lemma FirstTestMarks(s: State, flag: bool, status: Status)
    requires Sizes(s) && SlotsOk(s) && InHandOk(s) && RequestsOk(s) && MarksOk(s)
    requires OffloadEnabled(s, FirstTest(flag, status))
    ensures MarksOk(FirstTestStep(s, flag, status))
  {
    FirstOp(s);
  }

  lemma FirstTestInHand(s: State, flag: bool, status: Status)
    requires Sizes(s) && OffloadOk(s) && InHandOk(s) && OffloadEnabled(s, FirstTest(flag, status))
    ensures OffloadOk(FirstTestStep(s, flag, status))
    ensures InHandOk(FirstTestStep(s, flag, status))
  {
  }

  lemma FirstTestQueue(s: State, flag: bool, status: Status)
    requires Sizes(s) && QueuePart(s) && OffloadEnabled(s, FirstTest(flag, status))
    ensures QueuePart(FirstTestStep(s, flag, status))
  {
  }

  lemma FirstTestKeeps(s: State, flag: bool, status: Status)
    requires Sound(s) && OffloadEnabled(s, FirstTest(flag, status))
    ensures Sound(FirstTestStep(s, flag, status))
  {
    Open(s);
    var p, slot := s.off.post, s.off.slot;
    FirstOp(s);
    TestedFlags(s, slot, p, flag, status);
    TestedCalls(s, slot, p, flag, status);
    FirstTestQueue(s, flag, status);
    FirstTestInHand(s, flag, status);
    FirstTestUsed(s, flag, status);
    FirstTestRequests(s, flag, status);
    FirstTestMarks(s, flag, status);
    Close(FirstTestStep(s, flag, status));
  }

  lemma FirstMarkSlots(s: State)
    requires Sizes(s) && SlotsOk(s) && FlagsOk(s) && InHandOk(s) && OffloadEnabled(s, FirstMark)
    ensures SlotsOk(FirstMarkStep(s))
    ensures FlagsOk(FirstMarkStep(s))
  {
  }

  lemma FirstMarkCells(s: State)
    requires Sizes(s) && SlotsOk(s) && CellsOk(s) && LiveOk(s) && WritesOk(s) && InHandOk(s)
    requires OffloadEnabled(s, FirstMark)
    ensures CellsOk(FirstMarkStep(s))
    ensures LiveOk(FirstMarkStep(s))
    ensures WritesOk(FirstMarkStep(s))
  {
  }

  lemma FirstMarkApps(s: State)
    requires Sizes(s) && SlotsOk(s) && AppsOk(s) && ReleasersOk(s) && InHandOk(s) && OffloadEnabled(s, FirstMark)
    ensures AppsOk(FirstMarkStep(s))
    ensures ReleasersOk(FirstMarkStep(s))
  {
  }

  lemma FirstMarkCalls(s: State)
    requires Sizes(s) && SlotsOk(s) && BatchesOk(s) && StoredOk(s) && AnswersOk(s) && InHandOk(s) && MarksOk(s)
    requires OffloadEnabled(s, FirstMark)
    ensures BatchesOk(FirstMarkStep(s))
    ensures StoredOk(FirstMarkStep(s))
    ensures AnswersOk(FirstMarkStep(s))
  {
  }

  lemma FirstMarkOffload(s: State)
    requires Sizes(s) && SlotsOk(s) && OffloadPart(s) && OffloadEnabled(s, FirstMark)
    ensures OffloadPart(FirstMarkStep(s))
  {
  }

  lemma FirstMarkKeeps(s: State)
    requires Sound(s) && OffloadEnabled(s, FirstMark)
    ensures Sound(FirstMarkStep(s))
  {
    Open(s);
    FirstMarkSlots(s);
    FirstMarkCells(s);
    FirstMarkApps(s);
    FirstMarkCalls(s);
    FirstMarkOffload(s);
    Close(FirstMarkStep(s));
  }

  /** The sweep tests the handle of the slot's own operation: the null skip is never taken. */
  lemma SweptOp(s: State)
    requires Sizes(s) && UsedOk(s) && RequestsOk(s) && s.off.Sweeping? && s.off.pos < |s.used|
    ensures var x := s.used[s.off.pos];
            x < |s.requests| && s.requests[x] == Active(s.owner[x]) && s.owner[x] < |s.stage|
              && Pending(x, s.owner, s.stage)
  {
    assert s.used[s.off.pos] in s.used;
  }

  lemma SweptPublished(s: State)
    requires Sizes(s) && InHandOk(s) && UsedOk(s) && RequestsOk(s) && s.off.Sweeping? && s.off.pos < |s.used|
    ensures var x := s.used[s.off.pos];
            x < |s.requests| && s.owner[x] < |s.stage|
            && s.stage[s.owner[x]] == Published(x)
  {
    SweptOp(s);
  }

  lemma SweepTestUsed(s: State, flag: bool, status: Status)
    requires Sizes(s) && InHandOk(s) && UsedOk(s) && RequestsOk(s) && OffloadEnabled(s, SweepTest(flag, status))
    ensures UsedOk(SweepTestStep(s, flag, status))
    ensures RequestsOk(SweepTestStep(s, flag, status))
  {
    if s.off.pos < |s.used| { SweptOp(s); SweptPublished(s); }
  }

  lemma SweepTestMarks(s: State, flag: bool, status: Status)
    requires Sizes(s) && InHandOk(s) && SlotsOk(s) && UsedOk(s) && RequestsOk(s) && MarksOk(s)
    requires OffloadEnabled(s, SweepTest(flag, status))
    ensures MarksOk(SweepTestStep(s, flag, status))
  {
    if s.off.pos < |s.used| { SweptOp(s); SweptPublished(s); }
  }

  lemma SweepTestQueue(s: State, flag: bool, status: Status)
    requires Sizes(s) && QueuePart(s) && OffloadEnabled(s, SweepTest(flag, status))
    ensures QueuePart(SweepTestStep(s, flag, status))
  {
  }

  lemma SweepTestInHand(s: State, flag: bool, status: Status)
    requires Sizes(s) && OffloadOk(s) && InHandOk(s) && OffloadEnabled(s, SweepTest(flag, status))
    ensures OffloadOk(SweepTestStep(s, flag, status))
    ensures InHandOk(SweepTestStep(s, flag, status))
  {
  }

  lemma SweepTestKeeps(s: State, flag: bool, status: Status)
    requires Sound(s) && OffloadEnabled(s, SweepTest(flag, status))
    ensures Sound(SweepTestStep(s, flag, status))
  {
    Open(s);
    SweepTestQueue(s, flag, status);
    SweepTestInHand(s, flag, status);
    SweepTestUsed(s, flag, status);
    SweepTestMarks(s, flag, status);
    if s.off.pos < |s.used| {
      SweptOp(s);
      SweptPublished(s);
      TestedFlags(s, s.used[s.off.pos], s.owner[s.used[s.off.pos]], flag, status);
      TestedCalls(s, s.used[s.off.pos], s.owner[s.used[s.off.pos]], flag, status);
    }
    Close(SweepTestStep(s, flag, status));
  }

  lemma MarkedPublished(s: State)
    requires Sizes(s) && InHandOk(s) && UsedOk(s) && s.off.SweepMark?
    ensures s.off.pos < |s.used|
    ensures var x := s.used[s.off.pos]; x < |s.owner| && s.owner[x] < |s.stage| && s.stage[s.owner[x]] == Published(x)
  {
    assert s.used[s.off.pos] in s.used;
  }

  lemma SweepMarkDoneSlots(s: State)
    requires Sizes(s) && SlotsOk(s) && FlagsOk(s) && InHandOk(s) && UsedOk(s) && OffloadEnabled(s, SweepMarkDone)
    ensures SlotsOk(SweepMarkDoneStep(s))
    ensures FlagsOk(SweepMarkDoneStep(s))
  {
    MarkedPublished(s);
  }

  lemma SweepMarkDoneCells(s: State)
    requires Sizes(s) && SlotsOk(s) && CellsOk(s) && LiveOk(s) && WritesOk(s) && InHandOk(s) && UsedOk(s)
    requires OffloadEnabled(s, SweepMarkDone)
    ensures CellsOk(SweepMarkDoneStep(s))
    ensures LiveOk(SweepMarkDoneStep(s))
    ensures WritesOk(SweepMarkDoneStep(s))
  {
    MarkedPublished(s);
  }

  lemma SweepMarkDoneApps(s: State)
    requires Sizes(s) && SlotsOk(s) && AppsOk(s) && ReleasersOk(s) && InHandOk(s) && UsedOk(s)
    requires OffloadEnabled(s, SweepMarkDone)
    ensures AppsOk(SweepMarkDoneStep(s))
    ensures ReleasersOk(SweepMarkDoneStep(s))
  {
    MarkedPublished(s);
  }

  lemma SweepMarkDoneCalls(s: State)
    requires Sizes(s) && SlotsOk(s) && BatchesOk(s) && StoredOk(s) && AnswersOk(s) && InHandOk(s) && MarksOk(s)
    requires UsedOk(s) && OffloadEnabled(s, SweepMarkDone)
    ensures BatchesOk(SweepMarkDoneStep(s))
    ensures StoredOk(SweepMarkDoneStep(s))
    ensures AnswersOk(SweepMarkDoneStep(s))
  {
    MarkedPublished(s);
  }

  lemma SweepMarkDoneOffload(s: State)
    requires Sizes(s) && SlotsOk(s) && OffloadPart(s) && OffloadEnabled(s, SweepMarkDone)
    ensures OffloadPart(SweepMarkDoneStep(s))
  {
    MarkedPublished(s);
  }

  lemma SweepMarkDoneKeeps(s: State)
    requires Sound(s) && OffloadEnabled(s, SweepMarkDone)
    ensures Sound(SweepMarkDoneStep(s))
  {
    Open(s);
    SweepMarkDoneSlots(s);
    SweepMarkDoneCells(s);
    SweepMarkDoneApps(s);
    SweepMarkDoneCalls(s);
    SweepMarkDoneOffload(s);
    Close(SweepMarkDoneStep(s));
  }

  lemma SweepEraseSlotUsed(s: State, restart: bool)
    requires Sizes(s) && UsedOk(s) && RequestsOk(s) && OffloadOk(s) && InHandOk(s)
    requires OffloadEnabled(s, SweepEraseSlot(restart))
    ensures UsedOk(SweepEraseSlotStep(s, restart))
    ensures RequestsOk(SweepEraseSlotStep(s, restart))
  {
    ErasedList(s.used, s.off.pos);
  }

  lemma SweepEraseSlotQueue(s: State, restart: bool)
    requires Sizes(s) && QueuePart(s) && OffloadEnabled(s, SweepEraseSlot(restart))
    ensures QueuePart(SweepEraseSlotStep(s, restart))
  {
  }

  lemma SweepEraseSlotMarks(s: State, restart: bool)
    requires Sizes(s) && OffloadOk(s) && InHandOk(s) && MarksOk(s) && OffloadEnabled(s, SweepEraseSlot(restart))
    ensures OffloadOk(SweepEraseSlotStep(s, restart))
    ensures InHandOk(SweepEraseSlotStep(s, restart))
    ensures MarksOk(SweepEraseSlotStep(s, restart))
  {
  }

  lemma SweepEraseSlotKeeps(s: State, restart: bool)
    requires Sound(s) && OffloadEnabled(s, SweepEraseSlot(restart))
    ensures Sound(SweepEraseSlotStep(s, restart))
  {
    Open(s);
    SweepEraseSlotUsed(s, restart);
    SweepEraseSlotQueue(s, restart);
    SweepEraseSlotMarks(s, restart);
    Close(SweepEraseSlotStep(s, restart));
  }

  lemma DequeueStepKeeps(s: State, a: OffloadAction)
    requires Sound(s) && OffloadEnabled(s, a)
    requires a.Loop? || a.DequeueLoadTail? || a.DequeueLoadHead? || a.DequeueCas? || a.DequeueExchange?
    ensures Sound(OffloadNext(s, a))
  {
    match a
    case Loop => LoopKeeps(s);
    case DequeueLoadTail => DequeueLoadTailKeeps(s);
    case DequeueLoadHead => DequeueLoadHeadKeeps(s);
    case DequeueCas => DequeueCasKeeps(s);
    case DequeueExchange => DequeueExchangeKeeps(s);
  }

  lemma AcquireStepKeeps(s: State, a: OffloadAction)
    requires Sound(s) && OffloadEnabled(s, a)
    requires a.AcquireLoad? || a.AcquireNext? || a.AcquireSwap? || a.ClearDone? || a.Publish?
    ensures Sound(OffloadNext(s, a))
  {
    match a
    case AcquireLoad => AcquireLoadKeeps(s);
    case AcquireNext => AcquireNextKeeps(s);
    case AcquireSwap(spurious) => AcquireSwapKeeps(s, spurious);
    case ClearDone => ClearDoneKeeps(s);
    case Publish => PublishKeeps(s);
  }

  lemma IssueStepKeeps(s: State, a: OffloadAction)
    requires Sound(s) && OffloadEnabled(s, a)
    requires a.CallMpi? || a.FirstTest? || a.FirstMark?
    ensures Sound(OffloadNext(s, a))
  {
    match a
    case CallMpi(request) => CallMpiKeeps(s, request);
    case FirstTest(flag, status) => FirstTestKeeps(s, flag, status);
    case FirstMark => FirstMarkKeeps(s);
  }

  lemma SweepStepKeeps(s: State, a: OffloadAction)
    requires Sound(s) && OffloadEnabled(s, a)
    requires a.SweepTest? || a.SweepMarkDone? || a.SweepEraseSlot?
    ensures Sound(OffloadNext(s, a))
  {
    match a
    case SweepTest(flag, status) => SweepTestKeeps(s, flag, status);
    case SweepMarkDone => SweepMarkDoneKeeps(s);
    case SweepEraseSlot(restart) => SweepEraseSlotKeeps(s, restart);
  }

  /** acquire never reads an empty list. */
  lemma NeverEmpty(s: State)
    requires Sound(s)
    ensures s.pool.acquirer != FreeList.HaveHead(INVALID)
  {
    Open(s);
  }

  lemma OffloadNextKeeps(s: State, a: OffloadAction)
    requires Sound(s) && OffloadEnabled(s, a)
    ensures Sound(OffloadNext(s, a))
  {
    NeverEmpty(s);
    if a.Loop? || a.DequeueLoadTail? || a.DequeueLoadHead? || a.DequeueCas? || a.DequeueExchange? {
      DequeueStepKeeps(s, a);
    } else if a.AcquireLoad? || a.AcquireNext? || a.AcquireSwap? || a.ClearDone? || a.Publish? {
      AcquireStepKeeps(s, a);
    } else if a.CallMpi? || a.FirstTest? || a.FirstMark? {
      IssueStepKeeps(s, a);
    } else {
      SweepStepKeeps(s, a);
    }
  }
}
