/** Any schedule of the atomic actions, performed on the object, takes it through the states of the run. */
module Schedule {
  import opened Engine
  import opened EngineInv
  import EngineRuns
  import opened OffloadEngine

  method DoPost(e: OffloadEngine, a: AppAction)
    requires e.Valid() && AppEnabled(e.state, a) && Sizes(e.state) && PostingOk(e.state)
    requires a.PostBegin? || a.PostTicket? || a.PostStore?
    modifies e, e.queue, e.queue.elements, e.pool, e.pool.nexts, e.pool.done, e.pool.statuses, e.pool.requests
    ensures e.Valid() && e.state == AppNext(old(e.state), a)
  {
    match a
    case PostBegin(t, c, nul) => e.PostBegin(t, c, nul);
    case PostTicket(t) => e.PostTicket(t);
    case PostStore(t) => e.PostStore(t);
  }

  method DoWait(e: OffloadEngine, a: AppAction)
    requires e.Valid() && AppEnabled(e.state, a)
    requires a.WaitAdd? || a.WaitNext? || a.WaitLoadCell? || a.WaitLoadFlag? || a.WaitCopyStatus?
    modifies e, e.queue, e.queue.elements, e.pool, e.pool.nexts, e.pool.done, e.pool.statuses, e.pool.requests
    ensures e.Valid() && e.state == AppNext(old(e.state), a)
  {
    match a
    case WaitAdd(t, p, ignore) => e.WaitAdd(t, p, ignore);
    case WaitNext(t) => e.WaitNext(t);
    case WaitLoadCell(t) => e.WaitLoadCell(t);
    case WaitLoadFlag(t) => e.WaitLoadFlag(t);
    case WaitCopyStatus(t) => e.WaitCopyStatus(t);
  }

  method DoRelease(e: OffloadEngine, a: AppAction)
    requires e.Valid() && AppEnabled(e.state, a)
    requires a.WaitClearFlag? || a.ReleaseLoad? || a.ReleaseLink? || a.ReleaseSwap?
    modifies e, e.queue, e.queue.elements, e.pool, e.pool.nexts, e.pool.done, e.pool.statuses, e.pool.requests
    ensures e.Valid() && e.state == AppNext(old(e.state), a)
  {
    match a
    case WaitClearFlag(t) => e.WaitClearFlag(t);
    case ReleaseLoad(t) => e.ReleaseLoad(t);
    case ReleaseLink(t) => e.ReleaseLink(t);
    case ReleaseSwap(t, spurious) => e.ReleaseSwap(t, spurious);
  }

  method DoTest(e: OffloadEngine, a: AppAction)
    requires e.Valid() && AppEnabled(e.state, a) && Sizes(e.state)
    requires a.TestLoadCell? || a.TestLoadFlag? || a.TestCopyStatus?
    modifies e, e.queue, e.queue.elements, e.pool, e.pool.nexts, e.pool.done, e.pool.statuses, e.pool.requests
    ensures e.Valid() && e.state == AppNext(old(e.state), a)
  {
    match a
    case TestLoadCell(t) => var answer := e.TestLoadCell(t);
    case TestLoadFlag(t) => var answer := e.TestLoadFlag(t);
    case TestCopyStatus(t) => var answer := e.TestCopyStatus(t);
  }

  method DoOther(e: OffloadEngine, a: AppAction)
    requires e.Valid() && AppEnabled(e.state, a)
    requires a.TestBegin? || a.Overwrite? || a.Stop?
    modifies e, e.queue, e.queue.elements, e.pool, e.pool.nexts, e.pool.done, e.pool.statuses, e.pool.requests
    ensures e.Valid() && e.state == AppNext(old(e.state), a)
  {
    match a
    case TestBegin(t, p, ignore) => e.TestBegin(t, p, ignore);
    case Overwrite(c, value) => e.Overwrite(c, value);
    case Stop => e.Stop();
  }

  method DoDequeue(e: OffloadEngine, a: OffloadAction)
    requires e.Valid() && OffloadEnabled(e.state, a)
    requires a.Loop? || a.DequeueLoadTail? || a.DequeueLoadHead? || a.DequeueCas? || a.DequeueExchange?
    modifies e, e.queue, e.queue.elements, e.pool, e.pool.nexts, e.pool.done, e.pool.statuses, e.pool.requests
    ensures e.Valid() && e.state == OffloadNext(old(e.state), a)
  {
    match a
    case Loop => e.Loop();
    case DequeueLoadTail => e.DequeueLoadTail();
    case DequeueLoadHead => e.DequeueLoadHead();
    case DequeueCas => e.DequeueCas();
    case DequeueExchange => e.DequeueExchange();
  }

  method DoAcquire(e: OffloadEngine, a: OffloadAction)
    requires e.Valid() && OffloadEnabled(e.state, a) && Sizes(e.state)
    requires a.AcquireLoad? || a.AcquireNext? || a.AcquireSwap? || a.ClearDone? || a.Publish?
    modifies e, e.queue, e.queue.elements, e.pool, e.pool.nexts, e.pool.done, e.pool.statuses, e.pool.requests
    ensures e.Valid() && e.state == OffloadNext(old(e.state), a)
  {
    match a
    case AcquireLoad => e.AcquireLoad();
    case AcquireNext => e.AcquireNext();
    case AcquireSwap(spurious) => e.AcquireSwap(spurious);
    case ClearDone => e.ClearDone();
    case Publish => e.Publish();
  }

  method DoIssue(e: OffloadEngine, a: OffloadAction)
    requires e.Valid() && OffloadEnabled(e.state, a)
    requires a.CallMpi? || a.FirstTest? || a.FirstMark?
    modifies e, e.queue, e.queue.elements, e.pool, e.pool.nexts, e.pool.done, e.pool.statuses, e.pool.requests
    ensures e.Valid() && e.state == OffloadNext(old(e.state), a)
  {
    match a
    case CallMpi(request) => e.CallMpi(request);
    case FirstTest(flag, status) => e.FirstTest(flag, status);
    case FirstMark => e.FirstMark();
  }

  method DoSweep(e: OffloadEngine, a: OffloadAction)
    requires e.Valid() && OffloadEnabled(e.state, a)
    requires a.SweepTest? || a.SweepMarkDone? || a.SweepEraseSlot?
    modifies e, e.queue, e.queue.elements, e.pool, e.pool.nexts, e.pool.done, e.pool.statuses, e.pool.requests
    ensures e.Valid() && e.state == OffloadNext(old(e.state), a)
  {
    match a
    case SweepTest(flag, status) => e.SweepTest(flag, status);
    case SweepMarkDone => e.SweepMarkDone();
    case SweepEraseSlot(restart) => e.SweepEraseSlot(restart);
  }

  method AppStep(e: OffloadEngine, a: AppAction)
    requires e.Valid() && AppEnabled(e.state, a) && Sizes(e.state) && PostingOk(e.state)
    modifies e, e.queue, e.queue.elements, e.pool, e.pool.nexts, e.pool.done, e.pool.statuses, e.pool.requests
    ensures e.Valid() && e.state == AppNext(old(e.state), a)
  {
    if a.PostBegin? || a.PostTicket? || a.PostStore? {
      DoPost(e, a);
    } else if a.WaitAdd? || a.WaitNext? || a.WaitLoadCell? || a.WaitLoadFlag? || a.WaitCopyStatus? {
      DoWait(e, a);
    } else if a.WaitClearFlag? || a.ReleaseLoad? || a.ReleaseLink? || a.ReleaseSwap? {
      DoRelease(e, a);
    } else if a.TestLoadCell? || a.TestLoadFlag? || a.TestCopyStatus? {
      DoTest(e, a);
    } else {
      DoOther(e, a);
    }
  }

  method OffloadStep(e: OffloadEngine, a: OffloadAction)
    requires e.Valid() && OffloadEnabled(e.state, a) && Sizes(e.state) && !a.AcquireFail?
    modifies e, e.queue, e.queue.elements, e.pool, e.pool.nexts, e.pool.done, e.pool.statuses, e.pool.requests
    ensures e.Valid() && e.state == OffloadNext(old(e.state), a)
  {
    if a.Loop? || a.DequeueLoadTail? || a.DequeueLoadHead? || a.DequeueCas? || a.DequeueExchange? {
      DoDequeue(e, a);
    } else if a.AcquireLoad? || a.AcquireNext? || a.AcquireSwap? || a.ClearDone? || a.Publish? {
      DoAcquire(e, a);
    } else if a.CallMpi? || a.FirstTest? || a.FirstMark? {
      DoIssue(e, a);
    } else {
      DoSweep(e, a);
    }
  }

  /** What the object needs of a step of a run. */
  lemma StepReady(ss: seq<State>, acts: seq<Action>, i: nat)
    requires IsRun(ss, acts) && i < |acts|
    ensures Enabled(ss[i], acts[i]) && ss[i + 1] == Next(ss[i], acts[i]) && acts[i] != ByOffload(AcquireFail)
    ensures Sizes(ss[i]) && PostingOk(ss[i])
  {
    assert IsStep(ss, acts, i);
    EngineRuns.BoundMakesSafe(ss, acts, i);
    EngineRuns.RunIsSound(ss, acts, i);
    Shape(ss[i]);
  }

  lemma Shape(s: State)
    requires Sound(s)
    ensures Sizes(s) && PostingOk(s)
  {
    Open(s);
  }

  method Step(e: OffloadEngine, a: Action)
    requires e.Valid() && Enabled(e.state, a) && Sizes(e.state) && PostingOk(e.state) && a != ByOffload(AcquireFail)
    modifies e, e.queue, e.queue.elements, e.pool, e.pool.nexts, e.pool.done, e.pool.statuses, e.pool.requests
    ensures e.Valid() && e.state == Next(old(e.state), a)
  {
    match a
    case ByApp(app) => AppStep(e, app);
    case ByOffload(off) => OffloadStep(e, off);
  }

  method RunStep(e: OffloadEngine, acts: seq<Action>, i: nat, ghost ss: seq<State>)
    requires e.Valid() && IsRun(ss, acts) && i < |acts| && e.state == ss[i]
    modifies e, e.queue, e.queue.elements, e.pool, e.pool.nexts, e.pool.done, e.pool.statuses, e.pool.requests
    ensures e.Valid() && e.state == ss[i + 1]
  {
    StepReady(ss, acts, i);
    Step(e, acts[i]);
  }

  /** Whatever the schedule, the object goes through exactly the states of the run: what holds in every run holds of
      the object. */
  method Run(e: OffloadEngine, acts: seq<Action>, ghost ss: seq<State>)
    requires e.Valid() && IsRun(ss, acts) && e.state == ss[0]
    modifies e, e.queue, e.queue.elements, e.pool, e.pool.nexts, e.pool.done, e.pool.statuses, e.pool.requests
    ensures e.Valid() && e.state == ss[|acts|]
  {
    var i := 0;
    while i < |acts|
      invariant 0 <= i <= |acts| && e.Valid() && e.state == ss[i]
    {
      RunStep(e, acts, i, ss);
      i := i + 1;
    }
  }
}
