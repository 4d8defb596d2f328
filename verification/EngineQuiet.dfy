/** Quiescence, and that no step of the engine is ever undefined. */
module EngineQuiet {
  import EngineOffload
  import EngineApp
  import FreeList
  import RingFifo
  import Ring
  import opened LockedQueue
  import Words
  import opened Engine
  import opened EngineInv
  import opened EngineRuns

  // ---------------------------------------------------------------- nothing is left behind

  /** Every ticket has been taken and nothing is in a slot or in a producer's hands. */
  ghost predicate RingDrained(r: Ring.Ring)
  {
    && r.tail == |r.log| && r.consumer.Quiet?
    && (forall t :: 0 <= t < |r.producers| ==> r.producers[t].Away?)
    && (forall i :: 0 <= i < |r.slots| ==> r.slots[i] == NullPtr)
  }

  ghost predicate PoolFull(p: FreeList.Pool)
  {
    && FreeList.Elements(p.stack) == FreeList.Slots(p.size) && |p.stack| == p.size - 1 && FreeList.Distinct(p.stack)
    && p.acquirer.Asleep?
  }

  /** Some ticket of the current window falls on every slot. */
  lemma WindowCovers(size: nat, start: nat, i: nat) returns (k: nat)
    requires i < size
    ensures start <= k < start + size && Ring.SlotOf(size, k) == i
  {
    var d := (i - start) % size;
    k := start + d;
    var q := (i - start) / size;
    assert i - start == q * size + d;
    assert k == -q * size + i;
    Words.ModUnique(k, size, -q, i);
  }

  lemma EmptyRing(r: Ring.Ring)
    requires RingFifo.Inv(r) && r.consumer.Quiet? && r.tail == |r.log|
    ensures RingDrained(r) && RingFifo.Abs(r) == []
  {
    forall i | 0 <= i < |r.slots| ensures r.slots[i] == NullPtr {
      var k := WindowCovers(r.size, r.tail, i);
      assert r.slots[Ring.SlotOf(r.size, k)] == RingFifo.Expected(r, k);
    }
  }

  lemma UntakenIsQueued(s: State, k: nat)
    requires QueueOk(s) && 0 <= RingFifo.Taken(s.ring) <= k < |s.ring.log|
    ensures s.ring.log[k].cmd < |s.entry| && s.entry[s.ring.log[k].cmd] == Queued(k)
  {
  }

  lemma NobodyOutstanding(s: State)
    requires Sizes(s) && LiveOk(s) && s.live == {} && InHandOk(s) && QueueOk(s)
    requires 0 <= RingFifo.Taken(s.ring) <= |s.ring.log|
    ensures forall p :: 0 <= p < |s.stage| ==> s.stage[p].Released?
    ensures RingFifo.Taken(s.ring) == |s.ring.log|
  {
    forall p | 0 <= p < |s.stage| ensures s.stage[p].Released? { assert p !in s.live; }
    if RingFifo.Taken(s.ring) < |s.ring.log| { UntakenIsQueued(s, RingFifo.Taken(s.ring)); }
  }

  lemma FirstUsed(s: State)
    requires UsedOk(s) && (s.off.Top? || s.off.Stopped?) && s.used != []
    ensures s.used[0] < |s.owner| && Pending(s.used[0], s.owner, s.stage)
  {
    assert s.used[0] in s.used;
  }

  lemma NoSlotInUse(s: State)
    requires Sizes(s) && SlotsOk(s) && FlagsOk(s) && UsedOk(s) && (s.off.Top? || s.off.Stopped?)
    requires forall p :: 0 <= p < |s.stage| ==> s.stage[p].Released?
    ensures s.used == [] && (forall x :: 0 <= x < |s.done| ==> !s.done[x])
    ensures FreeList.OutSlots(s.pool.place) == {} && FreeList.LeavingSlots(s.pool.place) == {}
  {
    if s.used != [] { FirstUsed(s); }
  }

  /** When every request has been waited for and the loop is between iterations or has ended, the queue is empty, no
      slot is in use, every flag is clear and the free list is complete: stopping there drops no work. */
  lemma Quiescent(ss: seq<State>, acts: seq<Action>, n: nat)
    requires IsRun(ss, acts) && n < |ss| && ss[n].live == {} && (ss[n].off.Top? || ss[n].off.Stopped?)
    ensures RingDrained(ss[n].ring) && RingFifo.Abs(ss[n].ring) == []
    ensures ss[n].used == [] && (forall x :: 0 <= x < |ss[n].done| ==> !ss[n].done[x])
    ensures PoolFull(ss[n].pool)
    ensures forall p :: 0 <= p < |ss[n].stage| ==> ss[n].stage[p].Released?
    ensures |ss[n].issued| == |ss[n].ring.log|
  {
    RunKeepsInv(ss, acts, n);
    QuiescentState(ss[n]);
  }

  lemma QuiescentState(s: State)
    requires Inv(s) && s.live == {} && (s.off.Top? || s.off.Stopped?)
    ensures RingDrained(s.ring) && RingFifo.Abs(s.ring) == []
    ensures s.used == [] && (forall x :: 0 <= x < |s.done| ==> !s.done[x])
    ensures PoolFull(s.pool)
    ensures forall p :: 0 <= p < |s.stage| ==> s.stage[p].Released?
    ensures |s.issued| == |s.ring.log|
  {
    NobodyOutstanding(s);
    NoSlotInUse(s);
    EmptyRing(s.ring);
    FreeList.SlotsPartitioned(s.pool);
    FreeList.StackDistinct(s.pool);
  }

  // ---------------------------------------------------------------- stop

  lemma StepAfterStop(s: State, a: Action)
    requires Enabled(s, a) && !s.running
    ensures !Next(s, a).running
    ensures a == ByOffload(Loop) ==> Next(s, a).off.Stopped?
    ensures s.off.Stopped? ==> a.ByApp? && Next(s, a).off.Stopped?
  {
    match a
    case ByApp(app) => AppAfterStop(s, app);
    case ByOffload(off) =>
  }

  lemma AppAfterStop(s: State, a: AppAction)
    requires AppEnabled(s, a) && !s.running
    ensures !AppNext(s, a).running && AppNext(s, a).off == s.off
  {
  }

  /** The thread runs on until somebody calls stop, and only then leaves its loop. */
  lemma {:induction false} RunsUntilStop(ss: seq<State>, acts: seq<Action>, n: nat)
    requires IsRun(ss, acts) && n < |ss|
    ensures ss[n].running <==> ByApp(Stop) !in acts[..n]
    ensures ss[n].off.Stopped? ==> !ss[n].running
  {
    if n == 0 {
      StartsRunning(ss, acts);
    } else {
      RunsUntilStop(ss, acts, n - 1);
      RunStepRunning(ss, acts, n - 1);
      assert acts[..n] == acts[..n - 1] + [acts[n - 1]];
    }
  }

  lemma StartsRunning(ss: seq<State>, acts: seq<Action>)
    requires IsRun(ss, acts)
    ensures ss[0].running && !ss[0].off.Stopped?
  {
    assert IsStep(ss, acts, 0);
  }

  lemma RunStepRunning(ss: seq<State>, acts: seq<Action>, i: nat)
    requires IsRun(ss, acts) && i < |acts| && (ss[i].off.Stopped? ==> !ss[i].running)
    ensures ss[i + 1].running <==> ss[i].running && acts[i] != ByApp(Stop)
    ensures ss[i + 1].off.Stopped? ==> !ss[i + 1].running
  {
    assert IsStep(ss, acts, i);
    StepRunning(ss[i], acts[i]);
  }

  lemma StepRunning(s: State, a: Action)
    requires Enabled(s, a) && (s.off.Stopped? ==> !s.running)
    ensures Next(s, a).running <==> s.running && a != ByApp(Stop)
    ensures Next(s, a).off.Stopped? ==> !Next(s, a).running
  {
    match a
    case ByApp(app) => AppRunning(s, app);
    case ByOffload(off) => OffloadRunning(s, off);
  }

  lemma AppRunning(s: State, a: AppAction)
    requires AppEnabled(s, a)
    ensures AppNext(s, a).running <==> s.running && !a.Stop?
    ensures AppNext(s, a).off == s.off
  {
  }

  lemma OffloadRunning(s: State, a: OffloadAction)
    requires OffloadEnabled(s, a)
    ensures OffloadNext(s, a).running == s.running
    ensures OffloadNext(s, a).off.Stopped? ==> !s.running
  {
  }

  /** While running the head of the loop turns to dequeue, otherwise it ends the loop. */
  lemma LoopHead(ss: seq<State>, acts: seq<Action>, i: nat)
    requires IsRun(ss, acts) && i < |acts| && acts[i] == ByOffload(Loop)
    ensures if ByApp(Stop) in acts[..i] then ss[i + 1].off.Stopped? else ss[i + 1].off.Dequeuing?
  {
    RunsUntilStop(ss, acts, i);
    assert IsStep(ss, acts, i);
  }

  /** After stop the loop ends at its next test, begins no further iteration and never runs again. */
  lemma {:induction false} StopEndsLoop(ss: seq<State>, acts: seq<Action>, i: nat, j: nat)
    requires IsRun(ss, acts) && i <= j < |ss| && !ss[i].running
    ensures !ss[j].running
    ensures ss[i].off.Stopped? ==> ss[j].off.Stopped? && (j < |acts| ==> acts[j].ByApp?)
    ensures j < |acts| && acts[j] == ByOffload(Loop) ==> ss[j + 1].off.Stopped?
    decreases j - i
  {
    if i < |acts| { RunStepAfterStop(ss, acts, i); }
    if i < j { StopEndsLoop(ss, acts, i + 1, j); }
  }

  lemma RunStepAfterStop(ss: seq<State>, acts: seq<Action>, i: nat)
    requires IsRun(ss, acts) && i < |acts| && !ss[i].running
    ensures !ss[i + 1].running
    ensures acts[i] == ByOffload(Loop) ==> ss[i + 1].off.Stopped?
    ensures ss[i].off.Stopped? ==> acts[i].ByApp? && ss[i + 1].off.Stopped?
  {
    assert IsStep(ss, acts, i);
    StepAfterStop(ss[i], acts[i]);
  }

  // ---------------------------------------------------------------- every step is defined

  /** What the environment and the program counters alone allow, without index checks. */
  predicate AppReady(s: State, a: AppAction)
  {
    match a
    case PostBegin(t, c, _) => AppEnabled(s, a)
    case PostTicket(t) => t < |s.apps| && s.apps[t].Invalidated?
    case PostStore(t) => t < |s.apps| && s.apps[t].Enqueuing?
    case WaitAdd(t, p, _) => AppEnabled(s, a)
    case WaitNext(t) => t < |s.apps| && t < |s.batches| && s.apps[t].Idle? && s.batches[t].next < |s.batches[t].items|
    case WaitLoadCell(t) => t < |s.apps| && s.apps[t].WaitCell?
    case WaitLoadFlag(t) => t < |s.apps| && s.apps[t].WaitFlag?
    case WaitCopyStatus(t) => t < |s.apps| && s.apps[t].WaitCopy?
    case WaitClearFlag(t) => t < |s.apps| && s.apps[t].WaitClear?
    case ReleaseLoad(t) => t < |s.apps| && s.apps[t].Releasing? && t < |s.pool.releasers| && s.pool.releasers[t].ToLoad?
    case ReleaseLink(t) => t < |s.apps| && s.apps[t].Releasing? && t < |s.pool.releasers| && s.pool.releasers[t].ToLink?
    case ReleaseSwap(t, _) => t < |s.apps| && s.apps[t].Releasing? && t < |s.pool.releasers|
      && s.pool.releasers[t].ToSwap?
    case TestBegin(t, p, _) => AppEnabled(s, a)
    case TestLoadCell(t) => t < |s.apps| && s.apps[t].TestCell?
    case TestLoadFlag(t) => t < |s.apps| && s.apps[t].TestFlag?
    case TestCopyStatus(t) => t < |s.apps| && s.apps[t].TestCopy?
    case Overwrite(c, _) => AppEnabled(s, a)
    case Stop => true
  }

  predicate OffloadReady(s: State, a: OffloadAction)
  {
    match a
    case Loop => s.off.Top?
    case DequeueLoadTail => s.off.Dequeuing? && s.ring.consumer.Quiet?
    case DequeueLoadHead => s.off.Dequeuing? && s.ring.consumer.LoadedTail?
    case DequeueCas => s.off.Dequeuing? && s.ring.consumer.FoundWork?
    case DequeueExchange => s.off.Dequeuing? && s.ring.consumer.Claimed?
    case AcquireLoad => s.off.Acquiring? && s.pool.acquirer.Starting?
    case AcquireNext => s.off.Acquiring? && s.pool.acquirer.HaveHead?
    case AcquireSwap(_) => s.off.Acquiring? && s.pool.acquirer.HaveNext?
    case AcquireFail => false
    case ClearDone => s.off.Clearing?
    case Publish => s.off.Publishing?
    case CallMpi(request) => s.off.Calling? && (request.Active? ==> request.op == s.off.post)
    case FirstTest(flag, status) => s.off.Testing? && s.off.slot < |s.requests|
      && MayAnswer(s.requests[s.off.slot], flag, status)
    case FirstMark => s.off.Marking?
    case SweepTest(_, _) => s.off.Sweeping?
    case SweepMarkDone => s.off.SweepMark?
    case SweepEraseSlot(_) => s.off.SweepErase?
  }

  /** In every reachable state each thread's next access is well defined: no index, in particular never INVALID,
      is out of range, and acquire always has a node to look at. */
  lemma AppStepDefined(s: State, a: AppAction)
    requires Sound(s) && AppReady(s, a)
    ensures AppEnabled(s, a)
  {
    Open(s);
    if a.PostTicket? || a.PostStore? { PostDefined(s, a); }
    else if a.WaitNext? || a.WaitLoadCell? || a.WaitLoadFlag? || a.WaitCopyStatus? { WaitDefined(s, a); }
    else { ReturnDefined(s, a); }
  }

  lemma PostDefined(s: State, a: AppAction)
    requires BaseOk(s) && PostingOk(s) && AppReady(s, a) && (a.PostTicket? || a.PostStore?)
    ensures AppEnabled(s, a)
  {
  }

  lemma WaitDefined(s: State, a: AppAction)
    requires Sizes(s) && AppsOk(s) && BatchesOk(s) && CellsOk(s) && SlotsOk(s) && AppReady(s, a)
    requires a.WaitNext? || a.WaitLoadCell? || a.WaitLoadFlag? || a.WaitCopyStatus?
    ensures AppEnabled(s, a)
  {
  }

  lemma ReturnDefined(s: State, a: AppAction)
    requires Sizes(s) && FreeList.PlaceInv(s.pool) && AppsOk(s) && ReleasersOk(s) && CellsOk(s) && SlotsOk(s)
    requires AppReady(s, a)
    requires !a.PostTicket? && !a.PostStore? && !a.WaitNext? && !a.WaitLoadCell? && !a.WaitLoadFlag?
    requires !a.WaitCopyStatus?
    ensures AppEnabled(s, a)
  {
  }

  lemma OffloadStepDefined(s: State, a: OffloadAction)
    requires Sound(s) && OffloadReady(s, a)
    ensures OffloadEnabled(s, a)
  {
    Open(s);
    if a.DequeueExchange? { EngineOffload.ExchangeTakes(s); }
    else if a.AcquireNext? || a.AcquireSwap? { AcquireDefined(s, a); }
    else if a.SweepTest? { if s.off.pos < |s.used| { EngineOffload.SweptOp(s); } }
    else if a.SweepMarkDone? { EngineOffload.MarkedPublished(s); }
    else { StartDefined(s, a); }
  }

  /** The claimed ticket's producer has not stored yet. */
  ghost predicate AwaitsProducer(s: State)
  {
    && s.off.Dequeuing? && s.ring.consumer.Claimed? && 0 < s.ring.tail <= |s.ring.log|
    && s.ring.log[s.ring.tail - 1].thread < |s.ring.producers| && RingFifo.InFlight(s.ring, s.ring.tail - 1)
  }

  /** The access at which the offload thread stands. */
  function DueAccess(s: State): OffloadAction
  {
    match s.off
    case Top => Loop
    case Dequeuing =>
      (match s.ring.consumer
       case Quiet => DequeueLoadTail
       case LoadedTail(_) => DequeueLoadHead
       case FoundWork(_) => DequeueCas
       case Claimed(_) => DequeueExchange)
    case Acquiring(_) =>
      (match s.pool.acquirer
       case HaveHead(_) => AcquireNext
       case HaveNext(_, _) => AcquireSwap(false)
       case _ => AcquireLoad)
    case Clearing(_, _) => ClearDone
    case Publishing(_, _) => Publish
    case Calling(_, _) => CallMpi(Null)
    case Testing(_, _) => FirstTest(true, EMPTY_STATUS)
    case Marking(_, _) => FirstMark
    case Sweeping(_) => SweepTest(true, EMPTY_STATUS)
    case SweepMark(_) => SweepMarkDone
    case _ => SweepEraseSlot(false)
  }

  /** Until it has stopped the offload thread always has a step, and the step changes the state unless the thread is
      waiting for a producer that has taken its ticket and not stored. */
  lemma OffloadAlwaysMoves(s: State)
    requires Sound(s) && !s.off.Stopped?
    ensures OffloadEnabled(s, DueAccess(s))
    ensures OffloadNext(s, DueAccess(s)) != s || AwaitsProducer(s)
  {
    DueIsReady(s);
    OffloadStepDefined(s, DueAccess(s));
    if s.off.Dequeuing? && s.ring.consumer.Claimed? { ExchangeMoves(s); } else { DueMoves(s); }
  }

  /** The producer it waits for is one step from storing, and that step succeeds. */
  lemma AwaitedProducerStores(s: State)
    requires Sound(s) && AwaitsProducer(s)
    ensures var t := s.ring.log[s.ring.tail - 1].thread;
            AppEnabled(s, PostStore(t)) && PostStoreStep(s, t).apps[t].Idle? && !AwaitsProducer(PostStoreStep(s, t))
  {
    var t := s.ring.log[s.ring.tail - 1].thread;
    ProducerEnqueues(s, t);
    RingFifo.StoreSucceeds(s.ring, t);
  }

  lemma ProducerEnqueues(s: State, t: nat)
    requires Sound(s) && t < |s.ring.producers| && s.ring.producers[t].Storing?
    ensures RingFifo.Inv(s.ring) && AppEnabled(s, PostStore(t))
  {
    Open(s);
  }

  /** An application thread in a call always has a step. */
  lemma AppAlwaysMoves(s: State, t: nat) returns (a: AppAction)
    requires Sound(s) && t < |s.apps| && t < |s.batches| && !Resting(s, t)
    ensures AppEnabled(s, a)
    ensures AppNext(s, a) == s ==> SpinsOn(s, t)
  {
    a := DueCall(s, t);
    CallIsReady(s, t);
    AppStepDefined(s, a);
    CallMoves(s, t);
  }

  /** The access at which the thread stands. */
  function DueCall(s: State, t: nat): AppAction
    requires t < |s.apps|
  {
    match s.apps[t]
    case Idle => WaitNext(t)
    case Invalidated(_) => PostTicket(t)
    case Enqueuing(_) => PostStore(t)
    case WaitCell(_, _) => WaitLoadCell(t)
    case WaitFlag(_, _, _) => WaitLoadFlag(t)
    case WaitCopy(_, _, _) => WaitCopyStatus(t)
    case WaitClear(_, _, _) => WaitClearFlag(t)
    case Releasing(_, _, _) =>
      if t < |s.pool.releasers| && s.pool.releasers[t].ToLoad? then ReleaseLoad(t)
      else if t < |s.pool.releasers| && s.pool.releasers[t].ToLink? then ReleaseLink(t)
      else ReleaseSwap(t, false)
    case TestCell(_, _) => TestLoadCell(t)
    case TestFlag(_, _, _) => TestLoadFlag(t)
    case TestCopy(_, _, _) => TestCopyStatus(t)
  }

  /** The thread waits for the offload thread: its request has no slot to show, or is not finished. */
  ghost predicate SpinsOn(s: State, t: nat)
    requires t < |s.apps|
  {
    || (s.apps[t].WaitCell? && s.apps[t].post < |s.stage|
        && (s.stage[s.apps[t].post].Waiting? || s.stage[s.apps[t].post].Fresh?))
    || (s.apps[t].WaitFlag? && s.apps[t].post < |s.stage| && !Finished(s.stage[s.apps[t].post]))
  }

  lemma CallIsReady(s: State, t: nat)
    requires Sound(s) && t < |s.apps| && t < |s.batches| && !Resting(s, t)
    ensures AppReady(s, DueCall(s, t))
  {
    Calls(s);
    CallDue(s, t);
  }

  lemma Calls(s: State)
    requires Sound(s)
    ensures Sizes(s) && BatchesOk(s) && ReleasersOk(s)
  {
    Open(s);
  }

  lemma CallDue(s: State, t: nat)
    requires Sizes(s) && BatchesOk(s) && ReleasersOk(s) && t < |s.apps| && !Resting(s, t)
    ensures AppReady(s, DueCall(s, t))
  {
  }

  lemma CallMoves(s: State, t: nat)
    requires Sound(s) && t < |s.apps| && AppEnabled(s, DueCall(s, t))
    ensures AppNext(s, DueCall(s, t)) == s ==> SpinsOn(s, t)
  {
    if s.apps[t].Enqueuing? {
      ProducerEnqueues(s, t);
      RingFifo.StoreSucceeds(s.ring, t);
    } else if s.apps[t].WaitCell? {
      SpinsOnCell(s, t);
    } else if s.apps[t].WaitFlag? {
      SpinsOnFlag(s, t);
    } else {
      CallChanges(s, t);
    }
  }

  lemma SpinsOnCell(s: State, t: nat)
    requires Sound(s) && t < |s.apps| && s.apps[t].WaitCell? && AppEnabled(s, WaitLoadCell(t))
    ensures WaitLoadCellStep(s, t) == s ==> SpinsOn(s, t)
  {
    Open(s);
    EngineApp.TestedCell(s, t);
  }

  lemma SpinsOnFlag(s: State, t: nat)
    requires Sound(s) && t < |s.apps| && s.apps[t].WaitFlag? && AppEnabled(s, WaitLoadFlag(t))
    ensures WaitLoadFlagStep(s, t) == s ==> SpinsOn(s, t)
  {
    Open(s);
    EngineApp.TestedFlag(s, t);
  }

  lemma CallChanges(s: State, t: nat)
    requires t < |s.apps| && AppEnabled(s, DueCall(s, t))
    requires !s.apps[t].Enqueuing? && !s.apps[t].WaitCell? && !s.apps[t].WaitFlag?
    ensures AppNext(s, DueCall(s, t)) != s
  {
    var s', a, a' := AppNext(s, DueCall(s, t)), s.apps[t], AppNext(s, DueCall(s, t)).apps[t];
    if a.Releasing? && t < |s.pool.releasers| && t < |s'.pool.releasers| {
      assert s'.pool.releasers[t] != s.pool.releasers[t];
    } else if a.Idle? {
      assert s'.batches[t] != s.batches[t];
    } else {
      assert a' != a;
    }
  }

  // ---------------------------------------------------------------- a release ends

  /** State s after the next n accesses of thread t when no other thread moves. */
  function Alone(s: State, t: nat, n: nat): State
    decreases n
  {
    if n == 0 || t >= |s.apps| || !AppEnabled(s, DueCall(s, t)) then s else Alone(AppNext(s, DueCall(s, t)), t, n - 1)
  }

  /** How many accesses an undisturbed release still needs at most. */
  function AccessesLeft(r: FreeList.Releaser): nat
  {
    match r
    case Resting => 0
    case ToLoad(_) => 3
    case ToLink(_, _) => 4
    case ToSwap(_) => 3
  }

  /** The thread that was releasing its slot in s has returned from its wait in s', its slot on top of the chain. */
  ghost predicate Returned(s: State, s': State, t: nat)
    requires t < |s.apps| && s.apps[t].Releasing?
  {
    && t < |s'.apps| && s'.apps[t].Idle? && s'.pool.head == s.apps[t].slot
    && s'.pool.stack == s.pool.stack + [s.apps[t].slot]
    && s.apps[t].post < |s'.stage| && s'.stage[s.apps[t].post].Released?
  }

  /** From wherever it stands in release, after any number of failed compare-exchanges, a thread that is left alone is
      done within a fixed number of accesses. */
  lemma ReleaseEndsAlone(s: State, t: nat) returns (n: nat)
    requires Sound(s) && t < |s.apps| && s.apps[t].Releasing?
    ensures t < |s.pool.releasers| && n <= AccessesLeft(s.pool.releasers[t]) && Returned(s, Alone(s, t, n), t)
  {
    ReleaserOf(s, t);
    match s.pool.releasers[t] {
      case ToLoad(_) =>
        n := 3;
        LoadEnds(s, t);
      case ToLink(_, _) => n := LinkEnds(s, t);
      case ToSwap(_) => n := SwapEnds(s, t);
    }
  }

  lemma ReleaserOf(s: State, t: nat)
    requires Sound(s) && t < |s.apps| && s.apps[t].Releasing?
    ensures t < |s.pool.releasers| && !s.pool.releasers[t].Resting? && s.pool.releasers[t].idx == s.apps[t].slot
    ensures FreeList.Inv(s.pool) && s.apps[t].slot < |s.pool.nexts|
    ensures AppEnabled(s, DueCall(s, t))
  {
    PoolAndCalls(s);
    ReleaserIs(s, t);
    CallIsReady(s, t);
    AppStepDefined(s, DueCall(s, t));
  }

  lemma PoolAndCalls(s: State)
    requires Sound(s)
    ensures FreeList.Inv(s.pool) && ReleasersOk(s) && |s.batches| == |s.apps|
  {
    Open(s);
  }

  lemma ReleaserIs(s: State, t: nat)
    requires FreeList.Inv(s.pool) && ReleasersOk(s) && t < |s.apps| && s.apps[t].Releasing?
    ensures t < |s.pool.releasers| && !s.pool.releasers[t].Resting? && s.pool.releasers[t].idx == s.apps[t].slot
    ensures s.apps[t].slot < |s.pool.nexts|
  {
  }

  /** s1 follows s by an access inside release that leaves the chain and the thread's place in its wait. */
  ghost predicate Within(s: State, s1: State, t: nat)
  {
    && t < |s.apps| && s.apps[t].Releasing? && s1.apps == s.apps && s1.pool.stack == s.pool.stack
    && AppEnabled(s, DueCall(s, t)) && s1 == AppNext(s, DueCall(s, t))
  }

  lemma OneMore(s: State, s1: State, t: nat, n: nat)
    requires Within(s, s1, t) && Returned(s1, Alone(s1, t, n), t)
    ensures Returned(s, Alone(s, t, n + 1), t)
  {
  }

  lemma LoadEnds(s: State, t: nat)
    requires Sound(s) && t < |s.apps| && s.apps[t].Releasing? && t < |s.pool.releasers| && s.pool.releasers[t].ToLoad?
    ensures Returned(s, Alone(s, t, 3), t)
  {
    ReleaserOf(s, t);
    var s1 := ReleaseLoadStep(s, t);
    EngineApp.ReleaseLoadKeeps(s, t);
    LinkThenSwap(s1, t);
    OneMore(s, s1, t, 2);
  }

  /** With the present head in its register the release needs no further retry. */
  lemma LinkThenSwap(s: State, t: nat)
    requires Sound(s) && t < |s.apps| && s.apps[t].Releasing? && t < |s.pool.releasers|
    requires s.pool.releasers[t].ToLink? && s.pool.releasers[t].seen == s.pool.head
    ensures Returned(s, Alone(s, t, 2), t)
  {
    ReleaserOf(s, t);
    var s1 := ReleaseLinkStep(s, t);
    EngineApp.ReleaseLinkKeeps(s, t);
    SwapNow(s1, t);
    OneMore(s, s1, t, 1);
  }

  lemma SwapNow(s: State, t: nat)
    requires Sound(s) && t < |s.apps| && s.apps[t].Releasing? && t < |s.pool.releasers| && s.pool.releasers[t].ToSwap?
    requires s.pool.releasers[t].idx < |s.pool.nexts| && s.pool.head == s.pool.nexts[s.pool.releasers[t].idx]
    ensures Returned(s, Alone(s, t, 1), t)
  {
    ReleaserOf(s, t);
    SwapReturns(s, t);
    assert Alone(s, t, 1) == Alone(ReleaseSwapStep(s, t, false), t, 0);
  }

  lemma SwapReturns(s: State, t: nat)
    requires AppEnabled(s, ReleaseSwap(t, false)) && s.pool.releasers[t].idx == s.apps[t].slot
    requires s.pool.head == s.pool.nexts[s.pool.releasers[t].idx]
    ensures Returned(s, ReleaseSwapStep(s, t, false), t)
  {
  }

  lemma SwapEnds(s: State, t: nat) returns (n: nat)
    requires Sound(s) && t < |s.apps| && s.apps[t].Releasing? && t < |s.pool.releasers| && s.pool.releasers[t].ToSwap?
    ensures n <= 3 && Returned(s, Alone(s, t, n), t)
  {
    ReleaserOf(s, t);
    if s.pool.head == s.pool.nexts[s.pool.releasers[t].idx] {
      n := 1;
      SwapNow(s, t);
    } else {
      n := 3;
      var s1 := ReleaseSwapStep(s, t, false);
      EngineApp.ReleaseSwapKeeps(s, t, false);
      LinkThenSwap(s1, t);
      OneMore(s, s1, t, 2);
    }
  }

  lemma LinkEnds(s: State, t: nat) returns (n: nat)
    requires Sound(s) && t < |s.apps| && s.apps[t].Releasing? && t < |s.pool.releasers| && s.pool.releasers[t].ToLink?
    ensures n <= 4 && Returned(s, Alone(s, t, n), t)
  {
    ReleaserOf(s, t);
    var s1 := ReleaseLinkStep(s, t);
    EngineApp.ReleaseLinkKeeps(s, t);
    var m := SwapEnds(s1, t);
    n := m + 1;
    OneMore(s, s1, t, m);
  }

  lemma DueIsReady(s: State)
    requires Sound(s) && !s.off.Stopped?
    ensures OffloadReady(s, DueAccess(s))
  {
    Open(s);
  }

  lemma ExchangeMoves(s: State)
    requires Sound(s) && OffloadEnabled(s, DequeueExchange)
    ensures DequeueExchangeStep(s) != s || AwaitsProducer(s)
  {
    EngineOffload.RingSound(s);
    Found(s.ring);
  }

  /** The exchange finds an element unless the ticket's producer is still to store it. */
  lemma Found(r: Ring.Ring)
    requires RingFifo.Inv(r) && r.consumer.Claimed?
    ensures r.slots[Ring.SlotOf(r.size, r.consumer.word)].Cmd? || RingFifo.InFlight(r, r.tail - 1)
  {
    RingFifo.ExchangeDelivers(r);
  }

  lemma DueMoves(s: State)
    requires OffloadEnabled(s, DueAccess(s)) && !DueAccess(s).DequeueExchange?
    ensures OffloadNext(s, DueAccess(s)) != s
  {
  }

  lemma AcquireDefined(s: State, a: OffloadAction)
    requires Sizes(s) && FreeList.Inv(s.pool) && OffloadOk(s) && InHandOk(s) && OffloadReady(s, a)
            && (a.AcquireNext? || a.AcquireSwap?)
    ensures OffloadEnabled(s, a)
  {
  }

  lemma StartDefined(s: State, a: OffloadAction)
    requires BaseOk(s) && SlotsOk(s) && CellsOk(s) && InHandOk(s) && UsedOk(s) && RequestsOk(s) && OffloadReady(s, a)
    requires !a.DequeueExchange? && !a.AcquireNext? && !a.AcquireSwap? && !a.SweepTest? && !a.SweepMarkDone?
    ensures OffloadEnabled(s, a)
  {
  }
}
