/** The offload engine as a state machine: application threads post, test and wait; one offload thread
    dequeues, acquires a slot, publishes it, calls MPI and tests.  Each action is one access to shared
    memory (thread-private work is merged into a neighbouring access).
    The MPI library is the parameters of CallMpi, FirstTest and SweepTest. */
module Engine {
  import Ring
  import FreeList

  datatype Option<T> = None | Some(value: T)

  const INVALID: nat := FreeList.INVALID

  /** A status is opaque, apart from the empty one that a null request answers. */
  type Status = nat
  const EMPTY_STATUS: Status := 0

  /** What requests_[i] holds: MPI_REQUEST_NULL, or the handle of the operation some command started. */
  datatype Request = Null | Active(op: nat)

  /** Progress of a posted command up to its slot. */
  datatype Entry = Posting | Queued(ticket: nat) | Taken | Past

  /** Progress of its request from the slot on. */
  datatype Stage =
    | Waiting
    | Fresh(slot: nat)
    | Published(slot: nat)
    | Complete(slot: nat, status: Status)
    | Consumed(slot: nat)
    | Released

  /** What test answered: false, or true with the status it copied unless that was to be ignored. */
  datatype TestAnswer = No | Yes(copied: Option<Status>)

  /** Which call operates on the request: none, a running wait or test, or a Waitall that has it on its list. */
  datatype Holder = Nobody | InCall(thread: nat) | Listed(thread: nat, pos: nat)

  datatype OffloadPc =
    | Top
    | Stopped
    | Dequeuing
    | Acquiring(post: nat)
    | Exhausted(post: nat)
    | Clearing(post: nat, slot: nat)
    | Publishing(post: nat, slot: nat)
    | Calling(post: nat, slot: nat)
    | Testing(post: nat, slot: nat)
    | Marking(post: nat, slot: nat)
    | Sweeping(pos: nat)
    | SweepMark(pos: nat)
    | SweepErase(pos: nat)

  datatype AppPc =
    | Idle
    | Invalidated(post: nat)
    | Enqueuing(post: nat)
    | WaitCell(post: nat, ignore: bool)
    | WaitFlag(post: nat, slot: nat, ignore: bool)
    | WaitCopy(post: nat, slot: nat, ignore: bool)
    | WaitClear(post: nat, slot: nat, copied: Option<Status>)
    | Releasing(post: nat, slot: nat, copied: Option<Status>)
    | TestCell(post: nat, ignore: bool)
    | TestFlag(post: nat, slot: nat, ignore: bool)
    | TestCopy(post: nat, slot: nat, ignore: bool)

  /** One element of MPI_Waitall's arrays: a request and whether its status is MPI_STATUS_IGNORE. */
  datatype Item = Item(post: nat, ignore: bool)
  datatype Batch = Batch(items: seq<Item>, next: nat)

  datatype State = State(
    ring: Ring.Ring,
    pool: FreeList.Pool,
    done: seq<bool>,
    statuses: seq<Status>,
    requests: seq<Request>,
    used: seq<nat>,
    cells: seq<nat>,                   // the callers' MPI_Request variables
    running: bool,
    off: OffloadPc,
    apps: seq<AppPc>,
    batches: seq<Batch>,
    bound: nat,                        // the client bound on unreleased requests
    // history, one element per post
    entry: seq<Entry>,
    stage: seq<Stage>,
    cell: seq<nat>,
    nullRequest: seq<bool>,
    thread: seq<nat>,
    holder: seq<Holder>,
    wants: seq<bool>,                  // whether the wait was given a status to fill
    stored: seq<Option<Status>>,       // the status PMPI_Test stored for the post's operation
    result: seq<Option<Status>>,       // what wait copied out
    answers: seq<seq<TestAnswer>>,     // what test answered
    writes: seq<seq<nat>>,             // what the engine wrote to the post's cell
    tests: seq<nat>,                   // how often PMPI_Test was called on the operation
    // history, per slot, per cell, and overall
    owner: seq<nat>,
    cellOwner: seq<Option<nat>>,
    live: set<nat>,
    issued: seq<nat>)

  datatype AppAction =
    | PostBegin(thread: nat, cell: nat, nullRequest: bool)
    | PostTicket(thread: nat)
    | PostStore(thread: nat)
    | WaitAdd(thread: nat, post: nat, ignore: bool)
    | WaitNext(thread: nat)
    | WaitLoadCell(thread: nat)
    | WaitLoadFlag(thread: nat)
    | WaitCopyStatus(thread: nat)
    | WaitClearFlag(thread: nat)
    | ReleaseLoad(thread: nat)
    | ReleaseLink(thread: nat)
    | ReleaseSwap(thread: nat, spurious: bool)
    | TestBegin(thread: nat, post: nat, ignore: bool)
    | TestLoadCell(thread: nat)
    | TestLoadFlag(thread: nat)
    | TestCopyStatus(thread: nat)
    | Overwrite(cell: nat, value: nat)
    | Stop

  datatype OffloadAction =
    | Loop
    | DequeueLoadTail
    | DequeueLoadHead
    | DequeueCas
    | DequeueExchange
    | AcquireLoad
    | AcquireNext
    | AcquireSwap(spurious: bool)
    | AcquireFail
    | ClearDone
    | Publish
    | CallMpi(request: Request)
    | FirstTest(flag: bool, status: Status)
    | FirstMark
    | SweepTest(flag: bool, status: Status)
    | SweepMarkDone
    | SweepEraseSlot(restart: bool)

  datatype Action = ByApp(app: AppAction) | ByOffload(off: OffloadAction)

  /** PMPI_Test by section 3.7.3 of MPI 3.1: a null request answers true with the empty status. */
  predicate MayAnswer(request: Request, flag: bool, status: Status)
  {
    request.Null? ==> flag && status == EMPTY_STATUS
  }

  function Target(a: AppPc): Option<nat>
  {
    match a
    case Idle => None
    case Invalidated(_) => None
    case Enqueuing(_) => None
    case _ => Some(a.post)
  }

  /** The thread is in no call. */
  predicate Resting(s: State, t: nat)
  {
    t < |s.apps| && t < |s.batches| && s.apps[t].Idle? && s.batches[t].next == |s.batches[t].items|
  }

  /** What the environment and the program counters allow; index checks make the step well defined. */
  predicate AppEnabled(s: State, a: AppAction)
  {
    match a
    case PostBegin(t, c, _) =>
      Resting(s, t) && c < |s.cells| && c < |s.cellOwner| && s.cellOwner[c].None? && |s.live| < s.bound
    case PostTicket(t) =>
      && t < |s.apps| && s.apps[t].Invalidated? && s.apps[t].post < |s.entry|
      && Ring.Enabled(s.ring, Ring.FetchAdd(t, s.apps[t].post))
    case PostStore(t) =>
      t < |s.apps| && s.apps[t].Enqueuing? && Ring.Enabled(s.ring, Ring.Store(t)) && |s.ring.slots| == s.ring.size > 0
    case WaitAdd(t, p, _) =>
      && t < |s.apps| && t < |s.batches| && s.apps[t].Idle?
      && p < |s.holder| && p < |s.stage| && p < |s.wants| && s.holder[p].Nobody? && !s.stage[p].Released?
    case WaitNext(t) =>
      && t < |s.apps| && t < |s.batches| && s.apps[t].Idle? && s.batches[t].next < |s.batches[t].items|
      && s.batches[t].items[s.batches[t].next].post < |s.holder|
    case WaitLoadCell(t) =>
      t < |s.apps| && s.apps[t].WaitCell? && s.apps[t].post < |s.cell| && s.cell[s.apps[t].post] < |s.cells|
    case WaitLoadFlag(t) => t < |s.apps| && s.apps[t].WaitFlag? && s.apps[t].slot < |s.done|
    case WaitCopyStatus(t) => t < |s.apps| && s.apps[t].WaitCopy? && s.apps[t].slot < |s.statuses|
    case WaitClearFlag(t) =>
      && t < |s.apps| && s.apps[t].WaitClear? && s.apps[t].slot < |s.done| && s.apps[t].post < |s.stage|
      && FreeList.Enabled(s.pool, FreeList.BeginRelease(t, s.apps[t].slot))
    case ReleaseLoad(t) => t < |s.apps| && s.apps[t].Releasing? && FreeList.Enabled(s.pool, FreeList.LoadHead(t))
    case ReleaseLink(t) => t < |s.apps| && s.apps[t].Releasing? && FreeList.Enabled(s.pool, FreeList.Link(t))
    case ReleaseSwap(t, spurious) =>
      && t < |s.apps| && s.apps[t].Releasing? && FreeList.Enabled(s.pool, FreeList.SwapIn(t, spurious))
      && var p := s.apps[t].post;
         p < |s.stage| && p < |s.result| && p < |s.holder| && p < |s.cell|
         && s.cell[p] < |s.cellOwner|
    case TestBegin(t, p, _) =>
      && Resting(s, t) && p < |s.holder| && p < |s.stage| && s.holder[p].Nobody? && !s.stage[p].Released?
    case TestLoadCell(t) =>
      && t < |s.apps| && s.apps[t].TestCell?
      && var p := s.apps[t].post; p < |s.cell| && s.cell[p] < |s.cells| && p < |s.answers| && p < |s.holder|
    case TestLoadFlag(t) =>
      && t < |s.apps| && s.apps[t].TestFlag? && s.apps[t].slot < |s.done| && s.apps[t].post < |s.answers|
      && s.apps[t].post < |s.holder|
    case TestCopyStatus(t) =>
      && t < |s.apps| && s.apps[t].TestCopy? && s.apps[t].slot < |s.statuses| && s.apps[t].post < |s.answers|
      && s.apps[t].post < |s.holder|
    case Overwrite(c, _) => c < |s.cells| && c < |s.cellOwner| && s.cellOwner[c].None?
    case Stop => true
  }

  predicate OffloadEnabled(s: State, a: OffloadAction)
  {
    match a
    case Loop => s.off.Top?
    case DequeueLoadTail => s.off.Dequeuing? && Ring.Enabled(s.ring, Ring.LoadTail)
    case DequeueLoadHead => s.off.Dequeuing? && Ring.Enabled(s.ring, Ring.LoadHead)
    case DequeueCas => s.off.Dequeuing? && Ring.Enabled(s.ring, Ring.CasTail)
    case DequeueExchange =>
      && s.off.Dequeuing? && Ring.Enabled(s.ring, Ring.Exchange) && |s.ring.slots| == s.ring.size > 0
      && var e := s.ring.slots[Ring.SlotOf(s.ring.size, s.ring.consumer.word)]; e.Cmd? ==> e.id < |s.entry|
    case AcquireLoad => s.off.Acquiring? && FreeList.Enabled(s.pool, FreeList.AcquireLoad)
    case AcquireNext => s.off.Acquiring? && FreeList.Enabled(s.pool, FreeList.AcquireNext)
    case AcquireSwap(spurious) =>
      && s.off.Acquiring? && FreeList.Enabled(s.pool, FreeList.AcquireSwap(spurious))
      && s.off.post < |s.entry| && s.off.post < |s.stage| && s.pool.acquirer.seen < |s.owner|
    case AcquireFail => s.off.Acquiring? && FreeList.Enabled(s.pool, FreeList.AcquireFail)
    case ClearDone => s.off.Clearing? && s.off.slot < |s.done|
    case Publish =>
      && s.off.Publishing? && s.off.post < |s.cell| && s.cell[s.off.post] < |s.cells| && s.off.post < |s.stage|
      && s.off.post < |s.writes|
    case CallMpi(request) =>
      && s.off.Calling? && s.off.slot < |s.requests| && s.off.post < |s.nullRequest|
      && (request.Active? ==> request.op == s.off.post)
    case FirstTest(flag, status) =>
      && s.off.Testing? && s.off.slot < |s.requests| && s.off.slot < |s.statuses|
      && s.off.post < |s.stored| && s.off.post < |s.tests|
      && (s.requests[s.off.slot].Active? ==>
         s.requests[s.off.slot].op < |s.stored| && s.requests[s.off.slot].op < |s.tests|)
      && MayAnswer(s.requests[s.off.slot], flag, status)
    case FirstMark =>
      s.off.Marking? && s.off.slot < |s.done| && s.off.slot < |s.statuses| && s.off.post < |s.stage|
    case SweepTest(flag, status) =>
      && s.off.Sweeping?
      && (s.off.pos < |s.used| ==>
            var slot := s.used[s.off.pos];
            && slot < |s.requests| && slot < |s.statuses|
            && (s.requests[slot].Active? ==> s.requests[slot].op < |s.stored| && s.requests[slot].op < |s.tests|))
    case SweepMarkDone =>
      && s.off.SweepMark? && s.off.pos < |s.used|
      && var slot := s.used[s.off.pos];
         slot < |s.done| && slot < |s.statuses| && slot < |s.owner| && s.owner[slot] < |s.stage|
    case SweepEraseSlot(_) => s.off.SweepErase? && s.off.pos < |s.used|
  }

  // ---------------------------------------------------------------- application threads

  /** OffloadEngine::post, first half: the cell is invalidated; the command object gets its identity. */
  function PostBeginStep(s: State, t: nat, c: nat, nul: bool): State
    requires AppEnabled(s, PostBegin(t, c, nul))
  {
    var p := |s.stage|;
    s.(cells := s.cells[c := INVALID], cellOwner := s.cellOwner[c := Some(p)], live := s.live + {p},
       apps := s.apps[t := Invalidated(p)],
       entry := s.entry + [Posting], stage := s.stage + [Waiting], cell := s.cell + [c],
       nullRequest := s.nullRequest + [nul], thread := s.thread + [t],
       holder := s.holder + [Nobody], wants := s.wants + [false],
       stored := s.stored + [None], result := s.result + [None], answers := s.answers + [[]],
       writes := s.writes + [[INVALID]], tests := s.tests + [0])
  }

  function PostTicketStep(s: State, t: nat): State
    requires AppEnabled(s, PostTicket(t))
  {
    var p := s.apps[t].post;
    s.(ring := Ring.FetchAddStep(s.ring, t, p), apps := s.apps[t := Enqueuing(p)],
       entry := s.entry[p := Queued(|s.ring.log|)])
  }

  function PostStoreStep(s: State, t: nat): State
    requires AppEnabled(s, PostStore(t))
  {
    var ring := Ring.StoreStep(s.ring, t);
    s.(ring := ring, apps := if ring.producers[t].Away? then s.apps[t := Idle] else s.apps)
  }

  /** A request becomes an element of the array the thread is about to wait on. */
  function WaitAddStep(s: State, t: nat, p: nat, ignore: bool): State
    requires AppEnabled(s, WaitAdd(t, p, ignore))
  {
    var b := s.batches[t];
    s.(batches := s.batches[t := Batch(b.items + [Item(p, ignore)], b.next)],
       holder := s.holder[p := Listed(t, |b.items|)], wants := s.wants[p := !ignore])
  }

  function WaitNextStep(s: State, t: nat): State
    requires AppEnabled(s, WaitNext(t))
  {
    var b := s.batches[t];
    var item := b.items[b.next];
    s.(batches := s.batches[t := Batch(b.items, b.next + 1)], apps := s.apps[t := WaitCell(item.post, item.ignore)],
       holder := s.holder[item.post := InCall(t)])
  }

  function WaitLoadCellStep(s: State, t: nat): State
    requires AppEnabled(s, WaitLoadCell(t))
  {
    var idx := s.cells[s.cell[s.apps[t].post]];
    if idx == INVALID then s else s.(apps := s.apps[t := WaitFlag(s.apps[t].post, idx, s.apps[t].ignore)])
  }

  function WaitLoadFlagStep(s: State, t: nat): State
    requires AppEnabled(s, WaitLoadFlag(t))
  {
    if !s.done[s.apps[t].slot] then s
    else s.(apps := s.apps[t := WaitCopy(s.apps[t].post, s.apps[t].slot, s.apps[t].ignore)])
  }

  function WaitCopyStatusStep(s: State, t: nat): State
    requires AppEnabled(s, WaitCopyStatus(t))
  {
    var a := s.apps[t];
    s.(apps := s.apps[t := WaitClear(a.post, a.slot, if a.ignore then None else Some(s.statuses[a.slot]))])
  }

  function WaitClearFlagStep(s: State, t: nat): State
    requires AppEnabled(s, WaitClearFlag(t))
  {
    var a := s.apps[t];
    s.(done := s.done[a.slot := false], pool := FreeList.BeginReleaseStep(s.pool, t, a.slot),
       apps := s.apps[t := Releasing(a.post, a.slot, a.copied)], stage := s.stage[a.post := Consumed(a.slot)])
  }

  function ReleaseLoadStep(s: State, t: nat): State
    requires AppEnabled(s, ReleaseLoad(t))
  {
    s.(pool := FreeList.LoadHeadStep(s.pool, t))
  }

  function ReleaseLinkStep(s: State, t: nat): State
    requires AppEnabled(s, ReleaseLink(t))
  {
    s.(pool := FreeList.LinkStep(s.pool, t))
  }

  /** The end of a wait, once its slot is back on the free list. */
  function WaitDone(s: State, t: nat, pool: FreeList.Pool): State
    requires t < |s.apps| && s.apps[t].Releasing?
    requires var p := s.apps[t].post;
             p < |s.stage| && p < |s.result| && p < |s.holder| && p < |s.cell|
             && s.cell[p] < |s.cellOwner|
  {
    var a := s.apps[t];
    s.(pool := pool, apps := s.apps[t := Idle], stage := s.stage[a.post := Released],
       result := s.result[a.post := a.copied], holder := s.holder[a.post := Nobody],
       cellOwner := s.cellOwner[s.cell[a.post] := None], live := s.live - {a.post})
  }

  function ReleaseSwapStep(s: State, t: nat, spurious: bool): State
    requires AppEnabled(s, ReleaseSwap(t, spurious))
  {
    var pool := FreeList.SwapInStep(s.pool, t, spurious);
    if !pool.releasers[t].Resting? then s.(pool := pool) else WaitDone(s, t, pool)
  }

  function TestBeginStep(s: State, t: nat, p: nat, ignore: bool): State
    requires AppEnabled(s, TestBegin(t, p, ignore))
  {
    s.(apps := s.apps[t := TestCell(p, ignore)], holder := s.holder[p := InCall(t)])
  }

  function TestReturn(s: State, t: nat, p: nat, answer: TestAnswer): State
    requires t < |s.apps| && p < |s.answers| && p < |s.holder|
  {
    s.(apps := s.apps[t := Idle], holder := s.holder[p := Nobody], answers := s.answers[p := s.answers[p] + [answer]])
  }

  function TestLoadCellStep(s: State, t: nat): State
    requires AppEnabled(s, TestLoadCell(t))
  {
    var p := s.apps[t].post;
    var idx := s.cells[s.cell[p]];
    if idx == INVALID then TestReturn(s, t, p, No) else s.(apps := s.apps[t := TestFlag(p, idx, s.apps[t].ignore)])
  }

  function TestLoadFlagStep(s: State, t: nat): State
    requires AppEnabled(s, TestLoadFlag(t))
  {
    var a := s.apps[t];
    if !s.done[a.slot] then TestReturn(s, t, a.post, No)
    else s.(apps := s.apps[t := TestCopy(a.post, a.slot, a.ignore)])
  }

  function TestCopyStatusStep(s: State, t: nat): State
    requires AppEnabled(s, TestCopyStatus(t))
  {
    var a := s.apps[t];
    TestReturn(s, t, a.post, Yes(if a.ignore then None else Some(s.statuses[a.slot])))
  }

  // ---------------------------------------------------------------- the offload thread

  function LoopStep(s: State): State
  {
    s.(off := if s.running then Dequeuing else Stopped)
  }

  function DequeueLoadTailStep(s: State): State
  {
    s.(ring := Ring.LoadTailStep(s.ring))
  }

  /** dequeue answers nullptr: the loop turns to test_requests. */
  function DequeueLoadHeadStep(s: State): State
    requires OffloadEnabled(s, DequeueLoadHead)
  {
    var ring := Ring.LoadHeadStep(s.ring);
    s.(ring := ring, off := if ring.consumer.Quiet? then Sweeping(0) else s.off)
  }

  function DequeueCasStep(s: State): State
    requires OffloadEnabled(s, DequeueCas)
  {
    s.(ring := Ring.CasTailStep(s.ring))
  }

  /** The loop holds command p and turns to acquiring a slot for it. */
  function Took(s: State, ring: Ring.Ring, p: nat): State
    requires p < |s.entry|
  {
    s.(ring := ring, off := Acquiring(p), entry := s.entry[p := Taken], pool := FreeList.BeginAcquireStep(s.pool))
  }

  function DequeueExchangeStep(s: State): State
    requires OffloadEnabled(s, DequeueExchange)
  {
    var e := s.ring.slots[Ring.SlotOf(s.ring.size, s.ring.consumer.word)];
    if e.NullPtr? then s else Took(s, Ring.ExchangeStep(s.ring), e.id)
  }

  function AcquireLoadStep(s: State): State
  {
    s.(pool := FreeList.AcquireLoadStep(s.pool))
  }

  function AcquireNextStep(s: State): State
    requires OffloadEnabled(s, AcquireNext)
  {
    s.(pool := FreeList.AcquireNextStep(s.pool))
  }

  /** The slot is acquired and pushed to the front of used_. */
  function Acquired(s: State, pool: FreeList.Pool, slot: nat): State
    requires s.off.Acquiring? && s.off.post < |s.entry| && s.off.post < |s.stage| && slot < |s.owner|
  {
    var p := s.off.post;
    s.(pool := pool, used := [slot] + s.used, owner := s.owner[slot := p], off := Clearing(p, slot),
       entry := s.entry[p := Past], stage := s.stage[p := Fresh(slot)])
  }

  function AcquireSwapStep(s: State, spurious: bool): State
    requires OffloadEnabled(s, AcquireSwap(spurious))
  {
    var pool := FreeList.AcquireSwapStep(s.pool, spurious);
    if !pool.acquirer.Asleep? then s.(pool := pool) else Acquired(s, pool, s.pool.acquirer.seen)
  }

  /** acquire returns INVALID_INDEX: outside the client bound. */
  function AcquireFailStep(s: State): State
    requires OffloadEnabled(s, AcquireFail)
  {
    s.(pool := FreeList.AcquireFailStep(s.pool), used := [INVALID] + s.used, off := Exhausted(s.off.post))
  }

  function ClearDoneStep(s: State): State
    requires OffloadEnabled(s, ClearDone)
  {
    s.(done := s.done[s.off.slot := false], off := Publishing(s.off.post, s.off.slot))
  }

  function PublishStep(s: State): State
    requires OffloadEnabled(s, Publish)
  {
    var p, slot := s.off.post, s.off.slot;
    s.(cells := s.cells[s.cell[p] := slot], off := Calling(p, slot), stage := s.stage[p := Published(slot)],
       writes := s.writes[p := s.writes[p] + [slot]])
  }

  /** The MPI call, and the null-request override for calls that have no request. */
  function CallMpiStep(s: State, request: Request): State
    requires OffloadEnabled(s, CallMpi(request))
  {
    var p, slot := s.off.post, s.off.slot;
    s.(requests := s.requests[slot := if s.nullRequest[p] then Null else request], off := Testing(p, slot),
       issued := s.issued + [p])
  }

  /** PMPI_Test's effect on the memory and on the operation behind the handle. */
  function TestedState(s: State, slot: nat, op: nat, flag: bool, status: Status): State
    requires slot < |s.requests| && slot < |s.statuses| && op < |s.stored| && op < |s.tests|
  {
    s.(statuses := s.statuses[slot := status], tests := s.tests[op := s.tests[op] + 1],
       requests := if flag then s.requests[slot := Null] else s.requests,
       stored := if flag then s.stored[op := Some(status)] else s.stored)
  }

  function Removed(l: seq<nat>, x: nat): seq<nat>
  {
    if l == [] then [] else if l[0] == x then Removed(l[1..], x) else [l[0]] + Removed(l[1..], x)
  }

  function FirstTestStep(s: State, flag: bool, status: Status): State
    requires OffloadEnabled(s, FirstTest(flag, status))
  {
    var p, slot := s.off.post, s.off.slot;
    var op := if s.requests[slot].Active? then s.requests[slot].op else p;
    var s' := TestedState(s, slot, op, flag, status);
    if flag then s'.(used := Removed(s.used, slot), off := Marking(p, slot)) else s'.(off := Top)
  }

  function FirstMarkStep(s: State): State
    requires OffloadEnabled(s, FirstMark)
  {
    var p, slot := s.off.post, s.off.slot;
    s.(done := s.done[slot := true], off := Top, stage := s.stage[p := Complete(slot, s.statuses[slot])])
  }

  /** One round of test_requests' loop up to the store of done_; the end of the list ends the pass. */
  function SweepTestStep(s: State, flag: bool, status: Status): State
    requires OffloadEnabled(s, SweepTest(flag, status))
  {
    var i := s.off.pos;
    if i >= |s.used| then s.(off := Top)
    else if s.requests[s.used[i]].Null? then s.(off := Sweeping(i + 1))
    else
      TestedState(s, s.used[i], s.requests[s.used[i]].op, flag, status)
        .(off := if flag then SweepMark(i) else Sweeping(i + 1))
  }

  function SweepMarkDoneStep(s: State): State
    requires OffloadEnabled(s, SweepMarkDone)
  {
    var slot := s.used[s.off.pos];
    s.(done := s.done[slot := true], off := SweepErase(s.off.pos),
       stage := s.stage[s.owner[slot] := Complete(slot, s.statuses[slot])])
  }

  function Erased(l: seq<nat>, i: nat): seq<nat>
    requires i < |l|
  {
    l[..i] + l[i + 1..]
  }

  /** it = erase(it), then ++it: the element after the erased one is skipped.  Erasing the last element
      increments end(); both what ends the pass there and what continues at begin() are allowed. */
  function SweepEraseSlotStep(s: State, restart: bool): State
    requires OffloadEnabled(s, SweepEraseSlot(restart))
  {
    var i, used := s.off.pos, Erased(s.used, s.off.pos);
    s.(used := used, off := if i < |used| then Sweeping(i + 1) else if restart && used != [] then Sweeping(0) else Top)
  }

  function AppNext(s: State, a: AppAction): State
    requires AppEnabled(s, a)
  {
    match a
    case PostBegin(t, c, nul) => PostBeginStep(s, t, c, nul)
    case PostTicket(t) => PostTicketStep(s, t)
    case PostStore(t) => PostStoreStep(s, t)
    case WaitAdd(t, p, ignore) => WaitAddStep(s, t, p, ignore)
    case WaitNext(t) => WaitNextStep(s, t)
    case WaitLoadCell(t) => WaitLoadCellStep(s, t)
    case WaitLoadFlag(t) => WaitLoadFlagStep(s, t)
    case WaitCopyStatus(t) => WaitCopyStatusStep(s, t)
    case WaitClearFlag(t) => WaitClearFlagStep(s, t)
    case ReleaseLoad(t) => ReleaseLoadStep(s, t)
    case ReleaseLink(t) => ReleaseLinkStep(s, t)
    case ReleaseSwap(t, spurious) => ReleaseSwapStep(s, t, spurious)
    case TestBegin(t, p, ignore) => TestBeginStep(s, t, p, ignore)
    case TestLoadCell(t) => TestLoadCellStep(s, t)
    case TestLoadFlag(t) => TestLoadFlagStep(s, t)
    case TestCopyStatus(t) => TestCopyStatusStep(s, t)
    case Overwrite(c, value) => s.(cells := s.cells[c := value])
    case Stop => s.(running := false)
  }

  function OffloadNext(s: State, a: OffloadAction): State
    requires OffloadEnabled(s, a)
  {
    match a
    case Loop => LoopStep(s)
    case DequeueLoadTail => DequeueLoadTailStep(s)
    case DequeueLoadHead => DequeueLoadHeadStep(s)
    case DequeueCas => DequeueCasStep(s)
    case DequeueExchange => DequeueExchangeStep(s)
    case AcquireLoad => AcquireLoadStep(s)
    case AcquireNext => AcquireNextStep(s)
    case AcquireSwap(spurious) => AcquireSwapStep(s, spurious)
    case AcquireFail => AcquireFailStep(s)
    case ClearDone => ClearDoneStep(s)
    case Publish => PublishStep(s)
    case CallMpi(request) => CallMpiStep(s, request)
    case FirstTest(flag, status) => FirstTestStep(s, flag, status)
    case FirstMark => FirstMarkStep(s)
    case SweepTest(flag, status) => SweepTestStep(s, flag, status)
    case SweepMarkDone => SweepMarkDoneStep(s)
    case SweepEraseSlot(restart) => SweepEraseSlotStep(s, restart)
  }

  predicate Enabled(s: State, a: Action)
  {
    match a
    case ByApp(app) => AppEnabled(s, app)
    case ByOffload(off) => OffloadEnabled(s, off)
  }

  function Next(s: State, a: Action): State
    requires Enabled(s, a)
  {
    match a
    case ByApp(app) => AppNext(s, app)
    case ByOffload(off) => OffloadNext(s, off)
  }

  /** Before the first call: an empty ring, a full free list, arbitrary contents of the callers' cells. */
  predicate Initial(s: State)
  {
    && s.ring.exponent <= 31 && s.ring == Ring.Initial(s.ring.exponent, |s.apps|)
    && 1 <= s.pool.size <= INVALID && s.pool == FreeList.Initial(s.pool.size, |s.apps|)
    && |s.done| == |s.statuses| == |s.requests| == |s.owner| == s.pool.size
    && (forall i :: 0 <= i < |s.done| ==> !s.done[i])
    && s.used == [] && |s.cellOwner| == |s.cells| && (forall c :: 0 <= c < |s.cellOwner| ==> s.cellOwner[c] == None)
    && s.running && s.off.Top?
    && |s.batches| == |s.apps| && (forall t :: 0 <= t < |s.apps| ==> s.apps[t].Idle? && s.batches[t] == Batch([], 0))
    && s.bound <= s.ring.size && s.bound < Ring.HALF && s.bound <= s.pool.size - 1
    && s.entry == [] && s.stage == [] && s.cell == [] && s.nullRequest == [] && s.thread == [] && s.holder == []
       && s.wants == []
    && s.stored == [] && s.result == [] && s.answers == [] && s.writes == [] && s.tests == []
    && s.live == {} && s.issued == []
  }

  /** The initial state over given memory contents. */
  function Start(exponent: nat, poolSize: nat, threads: nat, cells: seq<nat>, statuses: seq<Status>,
      requests: seq<Request>, bound: nat): State
    requires 1 <= poolSize <= INVALID
  {
    State(Ring.Initial(exponent, threads), FreeList.Initial(poolSize, threads), seq(poolSize, _ => false),
          statuses, requests, [],
          cells, true, Top, seq(threads, _ => Idle), seq(threads, _ => Batch([], 0)), bound,
          [], [], [], [], [], [], [], [], [], [], [], [],
          seq(poolSize, _ => 0), seq(|cells|, _ => None), {}, [])
  }

  lemma StartIsInitial(exponent: nat, poolSize: nat, threads: nat, cells: seq<nat>, statuses: seq<Status>,
      requests: seq<Request>, bound: nat)
    requires exponent <= 31 && 1 <= poolSize <= INVALID && |statuses| == |requests| == poolSize
    requires bound <= Ring.Initial(exponent, threads).size && bound < Ring.HALF && bound <= poolSize - 1
    ensures Initial(Start(exponent, poolSize, threads, cells, statuses, requests, bound))
  {
  }

  /** What a run is at point i: it starts in an initial state, and acts[i] is enabled and leads to ss[i + 1]. */
  ghost predicate IsStep(ss: seq<State>, acts: seq<Action>, i: nat)
  {
    && i < |ss| && (i == 0 ==> Initial(ss[0]))
    && (i < |acts| ==> i + 1 < |ss| && Enabled(ss[i], acts[i]) && ss[i + 1] == Next(ss[i], acts[i]))
  }

  /** ss is a run: an initial state, each followed by the result of an enabled action. */
  ghost predicate IsRun(ss: seq<State>, acts: seq<Action>)
  {
    |ss| == |acts| + 1 && forall i: nat :: i <= |acts| ==> IsStep(ss, acts, i)
  }
}
