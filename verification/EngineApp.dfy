/** Every step of an application thread keeps the engine's invariant. */
module EngineApp {
  import FreeList
  import RingFifo
  import opened Engine
  import opened EngineInv
  import opened EngineBound

  lemma PostBeginQueue(s: State, t: nat, c: nat, nul: bool)
    requires Sizes(s) && QueuePart(s) && AppEnabled(s, PostBegin(t, c, nul))
    ensures QueuePart(PostBeginStep(s, t, c, nul))
  {
  }

  lemma PostBeginCells(s: State, t: nat, c: nat, nul: bool)
    requires Sizes(s) && CellsOk(s) && AppEnabled(s, PostBegin(t, c, nul))
    ensures CellsOk(PostBeginStep(s, t, c, nul))
  {
  }

  lemma PostBeginSlots(s: State, t: nat, c: nat, nul: bool)
    requires Sizes(s) && SlotsOk(s) && FlagsOk(s) && AppEnabled(s, PostBegin(t, c, nul))
    ensures SlotsOk(PostBeginStep(s, t, c, nul))
    ensures FlagsOk(PostBeginStep(s, t, c, nul))
  {
  }

  lemma PostBeginLive(s: State, t: nat, c: nat, nul: bool)
    requires Sizes(s) && LiveOk(s) && WritesOk(s) && AppEnabled(s, PostBegin(t, c, nul))
    ensures LiveOk(PostBeginStep(s, t, c, nul))
    ensures WritesOk(PostBeginStep(s, t, c, nul))
  {
    assert |s.stage| !in s.live;
  }

  lemma PostBeginCalls(s: State, t: nat, c: nat, nul: bool)
    requires Sizes(s) && CallPart(s) && AppEnabled(s, PostBegin(t, c, nul))
    ensures CallPart(PostBeginStep(s, t, c, nul))
  {
  }

  lemma PostBeginOffload(s: State, t: nat, c: nat, nul: bool)
    requires Sizes(s) && OffloadPart(s) && AppEnabled(s, PostBegin(t, c, nul))
    ensures OffloadPart(PostBeginStep(s, t, c, nul))
  {
  }

  lemma PostBeginKeeps(s: State, t: nat, c: nat, nul: bool)
    requires Sound(s) && AppEnabled(s, PostBegin(t, c, nul))
    ensures Sound(PostBeginStep(s, t, c, nul))
  {
    Open(s);
    PostBeginQueue(s, t, c, nul);
    PostBeginCells(s, t, c, nul);
    PostBeginSlots(s, t, c, nul);
    PostBeginLive(s, t, c, nul);
    PostBeginCalls(s, t, c, nul);
    PostBeginOffload(s, t, c, nul);
    Close(PostBeginStep(s, t, c, nul));
  }

  lemma PostTicketQueue(s: State, t: nat)
    requires Sizes(s) && QueueOk(s) && PostingOk(s) && IssuedOk(s) && AppEnabled(s, PostTicket(t))
    ensures QueueOk(PostTicketStep(s, t))
    ensures PostingOk(PostTicketStep(s, t))
  {
  }

  lemma PostTicketOrder(s: State, t: nat)
    requires Sizes(s) && PostingOk(s) && OrderOk(s) && IssuedOk(s) && AppEnabled(s, PostTicket(t))
    ensures OrderOk(PostTicketStep(s, t))
    ensures IssuedOk(PostTicketStep(s, t))
  {
  }

  lemma PostTicketOffload(s: State, t: nat)
    requires Sizes(s) && OffloadPart(s) && PostingOk(s) && AppEnabled(s, PostTicket(t))
    ensures OffloadPart(PostTicketStep(s, t))
  {
  }

  lemma PostTicketCalls(s: State, t: nat)
    requires Sizes(s) && CallPart(s) && AppEnabled(s, PostTicket(t))
    ensures CallPart(PostTicketStep(s, t))
  {
  }

  /** The bound keeps the new ticket inside the ring. */
  lemma PostTicketKeeps(s: State, t: nat)
    requires Sound(s) && AppEnabled(s, PostTicket(t))
    ensures Sound(PostTicketStep(s, t))
  {
    Open(s);
    TicketFits(s, t);
    RingFifo.FetchAddKeeps(s.ring, t, s.apps[t].post);
    PostTicketQueue(s, t);
    PostTicketOrder(s, t);
    PostTicketCalls(s, t);
    PostTicketOffload(s, t);
    Close(PostTicketStep(s, t));
  }

  lemma PostStoreQueue(s: State, t: nat)
    requires Sizes(s) && QueuePart(s) && AppEnabled(s, PostStore(t))
    ensures QueuePart(PostStoreStep(s, t))
  {
  }

  lemma PostStoreCalls(s: State, t: nat)
    requires Sizes(s) && CallPart(s) && AppEnabled(s, PostStore(t))
    ensures CallPart(PostStoreStep(s, t))
  {
  }

  lemma PostStoreKeeps(s: State, t: nat)
    requires Sound(s) && AppEnabled(s, PostStore(t))
    ensures Sound(PostStoreStep(s, t))
  {
    Open(s);
    RingFifo.StoreKeeps(s.ring, t);
    RingFifo.StoreSucceeds(s.ring, t);
    PostStoreQueue(s, t);
    PostStoreCalls(s, t);
    Close(PostStoreStep(s, t));
  }

  lemma WaitAddCalls(s: State, t: nat, p: nat, ignore: bool)
    requires Sizes(s) && CallPart(s) && AppEnabled(s, WaitAdd(t, p, ignore))
    ensures CallPart(WaitAddStep(s, t, p, ignore))
  {
  }

  lemma WaitAddKeeps(s: State, t: nat, p: nat, ignore: bool)
    requires Sound(s) && AppEnabled(s, WaitAdd(t, p, ignore))
    ensures Sound(WaitAddStep(s, t, p, ignore))
  {
    Open(s);
    WaitAddCalls(s, t, p, ignore);
    Close(WaitAddStep(s, t, p, ignore));
  }

  lemma WaitNextQueue(s: State, t: nat)
    requires Sizes(s) && QueuePart(s) && AppEnabled(s, WaitNext(t))
    ensures QueuePart(WaitNextStep(s, t))
  {
  }

  lemma WaitNextCalls(s: State, t: nat)
    requires Sizes(s) && CallPart(s) && AppEnabled(s, WaitNext(t))
    ensures CallPart(WaitNextStep(s, t))
  {
  }

  lemma WaitNextKeeps(s: State, t: nat)
    requires Sound(s) && AppEnabled(s, WaitNext(t))
    ensures Sound(WaitNextStep(s, t))
  {
    Open(s);
    WaitNextQueue(s, t);
    WaitNextCalls(s, t);
    Close(WaitNextStep(s, t));
  }

  lemma AdvanceQueue(s: State, t: nat, next: AppPc)
    requires Sizes(s) && QueuePart(s) && t < |s.apps| && Target(s.apps[t]).Some? && Target(next) == Target(s.apps[t])
    requires !s.apps[t].Releasing? && !next.Releasing?
    ensures QueuePart(s.(apps := s.apps[t := next]))
  {
  }

  lemma AdvanceCalls(s: State, t: nat, next: AppPc)
    requires Sizes(s) && CallPart(s) && t < |s.apps| && Target(s.apps[t]).Some? && Target(next) == Target(s.apps[t])
    requires !s.apps[t].Releasing? && !next.Releasing?
    requires s.apps[t].post < |s.stage| ==> Knows(next, s.stage[next.post], s.stored[next.post], s.wants[next.post])
    ensures CallPart(s.(apps := s.apps[t := next]))
  {
  }

  /** A thread may move on inside a call to anything it knows about the request. */
  lemma AdvanceKeeps(s: State, t: nat, next: AppPc)
    requires Sound(s) && t < |s.apps| && Target(s.apps[t]).Some? && Target(next) == Target(s.apps[t])
    requires !s.apps[t].Releasing? && !next.Releasing?
    requires next.post < |s.stage| == |s.stored| == |s.wants|
    requires Knows(next, s.stage[next.post], s.stored[next.post], s.wants[next.post])
    ensures Sound(s.(apps := s.apps[t := next]))
  {
    Open(s);
    AdvanceQueue(s, t, next);
    AdvanceCalls(s, t, next);
    Close(s.(apps := s.apps[t := next]));
  }

  /** The cell shows INVALID before the request has its slot, and the slot afterwards. */
  lemma TestedCell(s: State, t: nat)
    requires Sizes(s) && SlotsOk(s) && CellsOk(s) && AppsOk(s) && WritesOk(s) && s.pool.size <= INVALID
    requires t < |s.apps| && (s.apps[t].WaitCell? || s.apps[t].TestCell?)
    ensures var p := s.apps[t].post; p < |s.cell| && s.cell[p] < |s.cells|
    ensures var g, idx := s.stage[s.apps[t].post], s.cells[s.cell[s.apps[t].post]];
            if idx == INVALID then !Finished(g) else (g.Published? || g.Complete?) && g.slot == idx
  {
  }

  /** The flag of a slot in use is set exactly when its request is finished. */
  lemma TestedFlag(s: State, t: nat)
    requires Sizes(s) && SlotsOk(s) && FlagsOk(s) && AppsOk(s)
    requires t < |s.apps| && (s.apps[t].WaitFlag? || s.apps[t].TestFlag?)
    ensures s.apps[t].slot < |s.done|
    ensures var g := s.stage[s.apps[t].post]; if s.done[s.apps[t].slot] then g.Complete? else !Finished(g)
  {
    assert s.owner[s.apps[t].slot] == s.apps[t].post;
  }

  /** The status in the slot of a finished request is the one stored for its own operation. */
  lemma CopiedStatus(s: State, t: nat)
    requires Sizes(s) && SlotsOk(s) && FlagsOk(s) && AppsOk(s) && StoredOk(s)
    requires t < |s.apps| && (s.apps[t].TestCopy? || s.apps[t].WaitCopy?)
    ensures s.apps[t].slot < |s.statuses|
    ensures s.stage[s.apps[t].post].Complete? && s.stored[s.apps[t].post] == Some(s.statuses[s.apps[t].slot])
  {
    assert s.owner[s.apps[t].slot] == s.apps[t].post;
    assert s.done[s.apps[t].slot];
  }

  lemma WaitLoadCellKeeps(s: State, t: nat)
    requires Sound(s) && AppEnabled(s, WaitLoadCell(t))
    ensures Sound(WaitLoadCellStep(s, t))
  {
    Open(s);
    var a := s.apps[t];
    var idx := s.cells[s.cell[a.post]];
    TestedCell(s, t);
    if idx != INVALID { AdvanceKeeps(s, t, WaitFlag(a.post, idx, a.ignore)); }
  }

  lemma WaitLoadFlagKeeps(s: State, t: nat)
    requires Sound(s) && AppEnabled(s, WaitLoadFlag(t))
    ensures Sound(WaitLoadFlagStep(s, t))
  {
    Open(s);
    var a := s.apps[t];
    TestedFlag(s, t);
    if s.done[a.slot] { AdvanceKeeps(s, t, WaitCopy(a.post, a.slot, a.ignore)); }
  }

  lemma WaitCopyStatusKeeps(s: State, t: nat)
    requires Sound(s) && AppEnabled(s, WaitCopyStatus(t))
    ensures Sound(WaitCopyStatusStep(s, t))
  {
    Open(s);
    var a := s.apps[t];
    CopiedStatus(s, t);
    AdvanceKeeps(s, t, WaitClear(a.post, a.slot, if a.ignore then None else Some(s.statuses[a.slot])));
  }

  lemma WaitClearFlagQueue(s: State, t: nat)
    requires Sizes(s) && QueuePart(s) && AppEnabled(s, WaitClearFlag(t))
    ensures QueuePart(WaitClearFlagStep(s, t))
  {
  }

  lemma WaitClearFlagSlots(s: State, t: nat)
    requires Sizes(s) && SlotsOk(s) && AppsOk(s) && AppEnabled(s, WaitClearFlag(t))
    ensures SlotsOk(WaitClearFlagStep(s, t))
  {
  }

  lemma WaitClearFlagFlags(s: State, t: nat)
    requires Sizes(s) && SlotsOk(s) && FlagsOk(s) && AppsOk(s) && AppEnabled(s, WaitClearFlag(t))
    ensures FlagsOk(WaitClearFlagStep(s, t))
  {
  }

  lemma WaitClearFlagCells(s: State, t: nat)
    requires Sizes(s) && CellsOk(s) && LiveOk(s) && WritesOk(s) && AppsOk(s) && AppEnabled(s, WaitClearFlag(t))
    ensures CellsOk(WaitClearFlagStep(s, t))
    ensures LiveOk(WaitClearFlagStep(s, t))
    ensures WritesOk(WaitClearFlagStep(s, t))
  {
  }

  lemma WaitClearFlagApps(s: State, t: nat)
    requires Sizes(s) && AppsOk(s) && ReleasersOk(s) && AppEnabled(s, WaitClearFlag(t))
    ensures AppsOk(WaitClearFlagStep(s, t))
    ensures ReleasersOk(WaitClearFlagStep(s, t))
  {
  }

  lemma WaitClearFlagCalls(s: State, t: nat)
    requires Sizes(s) && AppsOk(s) && BatchesOk(s) && StoredOk(s) && AnswersOk(s) && AppEnabled(s, WaitClearFlag(t))
    ensures BatchesOk(WaitClearFlagStep(s, t))
    ensures StoredOk(WaitClearFlagStep(s, t))
    ensures AnswersOk(WaitClearFlagStep(s, t))
  {
  }

  lemma WaitClearFlagOffload(s: State, t: nat)
    requires Sizes(s) && OffloadPart(s) && AppsOk(s) && AppEnabled(s, WaitClearFlag(t))
    ensures OffloadPart(WaitClearFlagStep(s, t))
  {
  }

  lemma WaitClearFlagKeeps(s: State, t: nat)
    requires Sound(s) && AppEnabled(s, WaitClearFlag(t))
    ensures Sound(WaitClearFlagStep(s, t))
  {
    Open(s);
    FreeList.BeginReleaseKeeps(s.pool, t, s.apps[t].slot);
    WaitClearFlagQueue(s, t);
    WaitClearFlagSlots(s, t);
    WaitClearFlagFlags(s, t);
    WaitClearFlagCells(s, t);
    WaitClearFlagApps(s, t);
    WaitClearFlagCalls(s, t);
    WaitClearFlagOffload(s, t);
    Close(WaitClearFlagStep(s, t));
  }

  lemma WaitDoneQueue(s: State, t: nat, pool: FreeList.Pool)
    requires Sizes(s) && AppsOk(s) && CellsOk(s) && t < |s.apps| && s.apps[t].Releasing?
    requires QueuePart(s)
    ensures QueuePart(WaitDone(s, t, pool))
  {
  }

  lemma WaitDoneFlags(s: State, t: nat, pool: FreeList.Pool)
    requires Sizes(s) && AppsOk(s) && CellsOk(s) && t < |s.apps| && s.apps[t].Releasing?
    requires FlagsOk(s)
    ensures FlagsOk(WaitDone(s, t, pool))
    ensures CellsOk(WaitDone(s, t, pool))
  {
  }

  lemma WaitDoneLive(s: State, t: nat, pool: FreeList.Pool)
    requires Sizes(s) && AppsOk(s) && CellsOk(s) && t < |s.apps| && s.apps[t].Releasing?
    requires LiveOk(s) && WritesOk(s) && pool.size == s.pool.size
    ensures LiveOk(WaitDone(s, t, pool))
    ensures WritesOk(WaitDone(s, t, pool))
  {
  }

  lemma WaitDoneCalls(s: State, t: nat, pool: FreeList.Pool)
    requires Sizes(s) && AppsOk(s) && CellsOk(s) && t < |s.apps| && s.apps[t].Releasing?
    requires BatchesOk(s) && StoredOk(s) && AnswersOk(s)
    ensures BatchesOk(WaitDone(s, t, pool))
    ensures StoredOk(WaitDone(s, t, pool))
    ensures AnswersOk(WaitDone(s, t, pool))
  {
  }

  lemma WaitDoneInHand(s: State, t: nat, pool: FreeList.Pool)
    requires Sizes(s) && AppsOk(s) && CellsOk(s) && t < |s.apps| && s.apps[t].Releasing?
    requires OffloadOk(s) && InHandOk(s) && pool.acquirer == s.pool.acquirer
    ensures OffloadOk(WaitDone(s, t, pool))
    ensures InHandOk(WaitDone(s, t, pool))
  {
  }

  lemma WaitDoneUsed(s: State, t: nat, pool: FreeList.Pool)
    requires Sizes(s) && AppsOk(s) && CellsOk(s) && t < |s.apps| && s.apps[t].Releasing?
    requires UsedOk(s) && RequestsOk(s) && MarksOk(s)
    ensures UsedOk(WaitDone(s, t, pool))
    ensures RequestsOk(WaitDone(s, t, pool))
    ensures MarksOk(WaitDone(s, t, pool))
  {
  }

  lemma WaitDoneSlots(s: State, t: nat, pool: FreeList.Pool, height: nat)
    requires Sizes(s) && AppsOk(s) && CellsOk(s) && t < |s.apps| && s.apps[t].Releasing?
    requires SlotsOk(s) && s.apps[t].slot < |s.pool.place|
    requires pool.place == s.pool.place[s.apps[t].slot := FreeList.Free(height)]
    ensures SlotsOk(WaitDone(s, t, pool))
  {
  }

  lemma WaitDoneApps(s: State, t: nat, pool: FreeList.Pool)
    requires Sizes(s) && AppsOk(s) && CellsOk(s) && t < |s.apps| && s.apps[t].Releasing?
    requires ReleasersOk(s) && t < |s.pool.releasers| && pool.releasers == s.pool.releasers[t := FreeList.Resting]
    ensures AppsOk(WaitDone(s, t, pool))
    ensures ReleasersOk(WaitDone(s, t, pool))
  {
  }

  lemma WaitDoneParts(s: State, t: nat, pool: FreeList.Pool, height: nat)
    requires Inv(s) && t < |s.apps| && s.apps[t].Releasing?
    requires pool.size == s.pool.size && pool.acquirer == s.pool.acquirer && t < |s.pool.releasers|
    requires s.apps[t].slot < |s.pool.place|
    requires pool.place == s.pool.place[s.apps[t].slot := FreeList.Free(height)]
    requires pool.releasers == s.pool.releasers[t := FreeList.Resting]
    ensures var s' := WaitDone(s, t, pool); QueuePart(s') && SlotPart(s') && CallPart(s') && OffloadPart(s')
  {
    WaitDoneSlots(s, t, pool, height);
    WaitDoneQueue(s, t, pool);
    WaitDoneFlags(s, t, pool);
    WaitDoneLive(s, t, pool);
    WaitDoneApps(s, t, pool);
    WaitDoneCalls(s, t, pool);
    WaitDoneInHand(s, t, pool);
    WaitDoneUsed(s, t, pool);
  }

  /** A releaser may move inside release. */
  lemma RetryRelease(s: State, t: nat, pool: FreeList.Pool)
    requires Sound(s) && FreeList.Inv(pool) && t < |s.apps| && s.apps[t].Releasing?
    requires pool.size == s.pool.size && pool.acquirer == s.pool.acquirer && pool.place == s.pool.place
    requires t < |s.pool.releasers|
    requires |pool.releasers| == |s.pool.releasers| && pool.releasers == s.pool.releasers[t := pool.releasers[t]]
    requires !pool.releasers[t].Resting? && !s.pool.releasers[t].Resting?
    requires pool.releasers[t].idx == s.pool.releasers[t].idx
    ensures Sound(s.(pool := pool))
  {
    Open(s);
    RetriedReleasers(s.apps, s.pool.releasers, t, pool.releasers[t]);
    Close(s.(pool := pool));
  }

  lemma RetriedReleasers(apps: seq<AppPc>, releasers: seq<FreeList.Releaser>, t: nat, r: FreeList.Releaser)
    requires ReleaserInv(apps, releasers) && t < |apps| && apps[t].Releasing? && !r.Resting?
    requires r.idx == releasers[t].idx
    ensures ReleaserInv(apps, releasers[t := r])
  {
  }

  lemma ReleaseLoadKeeps(s: State, t: nat)
    requires Sound(s) && AppEnabled(s, ReleaseLoad(t))
    ensures Sound(ReleaseLoadStep(s, t))
  {
    Open(s);
    FreeList.LoadHeadKeeps(s.pool, t);
    RetryRelease(s, t, FreeList.LoadHeadStep(s.pool, t));
  }

  lemma ReleaseLinkKeeps(s: State, t: nat)
    requires Sound(s) && AppEnabled(s, ReleaseLink(t))
    ensures Sound(ReleaseLinkStep(s, t))
  {
    Open(s);
    FreeList.LinkKeeps(s.pool, t);
    RetryRelease(s, t, FreeList.LinkStep(s.pool, t));
  }

  lemma SwapInPool(p: FreeList.Pool, t: nat, spurious: bool)
    requires FreeList.Inv(p) && FreeList.Enabled(p, FreeList.SwapIn(t, spurious))
    ensures var p', x := FreeList.SwapInStep(p, t, spurious), p.releasers[t].idx;
            && FreeList.Inv(p') && p'.acquirer == p.acquirer && p'.size == p.size
               && p'.releasers == p.releasers[t := p'.releasers[t]]
            && if p'.releasers[t].Resting? then p'.place == p.place[x := FreeList.Free(|p.stack|)]
               else p'.place == p.place && p'.releasers[t].idx == x
  {
    FreeList.SwapInKeeps(p, t, spurious);
  }

  /** Releasing hands the slot back and leaves the request for good. */
  lemma ReleaseSwapKeeps(s: State, t: nat, spurious: bool)
    requires Sound(s) && AppEnabled(s, ReleaseSwap(t, spurious))
    ensures Sound(ReleaseSwapStep(s, t, spurious))
  {
    Open(s);
    var pool := FreeList.SwapInStep(s.pool, t, spurious);
    SwapInPool(s.pool, t, spurious);
    if pool.releasers[t].Resting? {
      WaitDoneParts(s, t, pool, |s.pool.stack|);
      Close(WaitDone(s, t, pool));
    } else {
      RetryRelease(s, t, pool);
    }
  }

  lemma TestBeginQueue(s: State, t: nat, p: nat, ignore: bool)
    requires Sizes(s) && QueuePart(s) && AppEnabled(s, TestBegin(t, p, ignore))
    ensures QueuePart(TestBeginStep(s, t, p, ignore))
  {
  }

  lemma TestBeginCalls(s: State, t: nat, p: nat, ignore: bool)
    requires Sizes(s) && CallPart(s) && AppEnabled(s, TestBegin(t, p, ignore))
    ensures CallPart(TestBeginStep(s, t, p, ignore))
  {
  }

  lemma TestBeginKeeps(s: State, t: nat, p: nat, ignore: bool)
    requires Sound(s) && AppEnabled(s, TestBegin(t, p, ignore))
    ensures Sound(TestBeginStep(s, t, p, ignore))
  {
    Open(s);
    TestBeginQueue(s, t, p, ignore);
    TestBeginCalls(s, t, p, ignore);
    Close(TestBeginStep(s, t, p, ignore));
  }

  /** What an answer must respect: false only before completion, the stored status after it. */
  ghost predicate AnswerFits(answer: TestAnswer, g: Stage, st: Option<Status>)
  {
    if answer.No? then !Finished(g) else Finished(g) && (answer.copied.Some? ==> answer.copied == st)
  }

  lemma TestReturnQueue(s: State, t: nat, p: nat, answer: TestAnswer)
    requires Sizes(s) && QueuePart(s) && AppsOk(s) && t < |s.apps| && Target(s.apps[t]) == Some(p)
    requires !s.apps[t].Releasing?
    ensures QueuePart(TestReturn(s, t, p, answer))
  {
  }

  lemma TestReturnCalls(s: State, t: nat, p: nat, answer: TestAnswer)
    requires Sizes(s) && AppsOk(s) && BatchesOk(s) && ReleasersOk(s) && StoredOk(s) && t < |s.apps|
    requires Target(s.apps[t]) == Some(p) && !s.apps[t].Releasing?
    ensures var s' := TestReturn(s, t, p, answer); AppsOk(s') && BatchesOk(s') && ReleasersOk(s') && StoredOk(s')
  {
  }

  lemma TestReturnAnswers(s: State, t: nat, p: nat, answer: TestAnswer)
    requires Sizes(s) && AppsOk(s) && AnswersOk(s) && t < |s.apps| && Target(s.apps[t]) == Some(p)
    requires !s.apps[t].Releasing?
    requires AnswerFits(answer, s.stage[p], s.stored[p])
    ensures AnswersOk(TestReturn(s, t, p, answer))
  {
    assert Steady(s.answers[p] + [answer], s.stage[p], s.stored[p]);
  }

  /** A test that returns leaves its request with nobody. */
  lemma TestReturnKeeps(s: State, t: nat, p: nat, answer: TestAnswer)
    requires Sound(s) && t < |s.apps| && Target(s.apps[t]) == Some(p) && !s.apps[t].Releasing?
    requires p < |s.stage| == |s.stored| == |s.answers| == |s.holder|
    requires AnswerFits(answer, s.stage[p], s.stored[p])
    ensures Sound(TestReturn(s, t, p, answer))
  {
    Open(s);
    TestReturnQueue(s, t, p, answer);
    TestReturnCalls(s, t, p, answer);
    TestReturnAnswers(s, t, p, answer);
    Close(TestReturn(s, t, p, answer));
  }

  lemma TestLoadCellKeeps(s: State, t: nat)
    requires Sound(s) && AppEnabled(s, TestLoadCell(t))
    ensures Sound(TestLoadCellStep(s, t))
  {
    Open(s);
    var p := s.apps[t].post;
    var idx := s.cells[s.cell[p]];
    TestedCell(s, t);
    if idx == INVALID { TestReturnKeeps(s, t, p, No); } else { AdvanceKeeps(s, t, TestFlag(p, idx, s.apps[t].ignore)); }
  }

  lemma TestLoadFlagKeeps(s: State, t: nat)
    requires Sound(s) && AppEnabled(s, TestLoadFlag(t))
    ensures Sound(TestLoadFlagStep(s, t))
  {
    Open(s);
    TestedFlag(s, t);
    var a := s.apps[t];
    if s.done[a.slot] { AdvanceKeeps(s, t, TestCopy(a.post, a.slot, a.ignore)); }
    else { TestReturnKeeps(s, t, a.post, No); }
  }

  lemma TestCopyStatusKeeps(s: State, t: nat)
    requires Sound(s) && AppEnabled(s, TestCopyStatus(t))
    ensures Sound(TestCopyStatusStep(s, t))
  {
    Open(s);
    CopiedStatus(s, t);
    var a := s.apps[t];
    TestReturnKeeps(s, t, a.post, Yes(if a.ignore then None else Some(s.statuses[a.slot])));
  }

  /** Memory that no outstanding request uses as its cell may be overwritten at any time. */
  lemma OverwriteKeeps(s: State, c: nat, value: nat)
    requires Sound(s) && AppEnabled(s, Overwrite(c, value))
    ensures Sound(AppNext(s, Overwrite(c, value)))
  {
    Open(s);
    OverwriteCells(s, c, value);
    Close(AppNext(s, Overwrite(c, value)));
  }

  lemma OverwriteCells(s: State, c: nat, value: nat)
    requires CellsOk(s) && c < |s.cells| && c < |s.cellOwner| && s.cellOwner[c].None?
    ensures CellsOk(s.(cells := s.cells[c := value]))
  {
  }

  lemma StopKeeps(s: State)
    requires Sound(s)
    ensures Sound(s.(running := false))
  {
    Open(s);
    Close(s.(running := false));
  }

  lemma PostStepKeeps(s: State, a: AppAction)
    requires Sound(s) && AppEnabled(s, a)
    requires a.PostBegin? || a.PostTicket? || a.PostStore? || a.Overwrite? || a.Stop?
    ensures Sound(AppNext(s, a))
  {
    match a
    case PostBegin(t, c, nul) => PostBeginKeeps(s, t, c, nul);
    case PostTicket(t) => PostTicketKeeps(s, t);
    case PostStore(t) => PostStoreKeeps(s, t);
    case Overwrite(c, value) => OverwriteKeeps(s, c, value);
    case Stop => StopKeeps(s);
  }

  lemma WaitStepKeeps(s: State, a: AppAction)
    requires Sound(s) && AppEnabled(s, a)
    requires a.WaitAdd? || a.WaitNext? || a.WaitLoadCell? || a.WaitLoadFlag? || a.WaitCopyStatus?
    ensures Sound(AppNext(s, a))
  {
    match a
    case WaitAdd(t, p, ignore) => WaitAddKeeps(s, t, p, ignore);
    case WaitNext(t) => WaitNextKeeps(s, t);
    case WaitLoadCell(t) => WaitLoadCellKeeps(s, t);
    case WaitLoadFlag(t) => WaitLoadFlagKeeps(s, t);
    case WaitCopyStatus(t) => WaitCopyStatusKeeps(s, t);
  }

  lemma ReleaseStepKeeps(s: State, a: AppAction)
    requires Sound(s) && AppEnabled(s, a)
    requires a.WaitClearFlag? || a.ReleaseLoad? || a.ReleaseLink? || a.ReleaseSwap?
    ensures Sound(AppNext(s, a))
  {
    match a
    case WaitClearFlag(t) => WaitClearFlagKeeps(s, t);
    case ReleaseLoad(t) => ReleaseLoadKeeps(s, t);
    case ReleaseLink(t) => ReleaseLinkKeeps(s, t);
    case ReleaseSwap(t, spurious) => ReleaseSwapKeeps(s, t, spurious);
  }

  lemma TestStepKeeps(s: State, a: AppAction)
    requires Sound(s) && AppEnabled(s, a)
    requires a.TestBegin? || a.TestLoadCell? || a.TestLoadFlag? || a.TestCopyStatus?
    ensures Sound(AppNext(s, a))
  {
    match a
    case TestBegin(t, p, ignore) => TestBeginKeeps(s, t, p, ignore);
    case TestLoadCell(t) => TestLoadCellKeeps(s, t);
    case TestLoadFlag(t) => TestLoadFlagKeeps(s, t);
    case TestCopyStatus(t) => TestCopyStatusKeeps(s, t);
  }

  lemma AppNextKeeps(s: State, a: AppAction)
    requires Sound(s) && AppEnabled(s, a)
    ensures Sound(AppNext(s, a))
  {
    if a.PostBegin? || a.PostTicket? || a.PostStore? || a.Overwrite? || a.Stop? {
      PostStepKeeps(s, a);
    } else if a.WaitAdd? || a.WaitNext? || a.WaitLoadCell? || a.WaitLoadFlag? || a.WaitCopyStatus? {
      WaitStepKeeps(s, a);
    } else if a.WaitClearFlag? || a.ReleaseLoad? || a.ReleaseLink? || a.ReleaseSwap? {
      ReleaseStepKeeps(s, a);
    } else {
      TestStepKeeps(s, a);
    }
  }
}
