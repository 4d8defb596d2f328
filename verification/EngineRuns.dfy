/** What holds in every run of the engine. */
module EngineRuns {
  import FreeList
  import RingFifo
  import Ring
  import opened Engine
  import opened EngineInv
  import opened EngineBound
  import EngineApp
  import EngineOffload

  lemma NextKeeps(s: State, a: Action)
    requires Sound(s) && Enabled(s, a)
    ensures Sound(Next(s, a))
  {
    match a
    case ByApp(app) => EngineApp.AppNextKeeps(s, app);
    case ByOffload(off) => EngineOffload.OffloadNextKeeps(s, off);
  }

  lemma {:induction false} RunIsSound(ss: seq<State>, acts: seq<Action>, i: nat)
    requires IsRun(ss, acts) && i < |ss|
    ensures Sound(ss[i])
  {
    if i == 0 {
      RunStartsSound(ss, acts);
    } else {
      RunIsSound(ss, acts, i - 1);
      RunStepSound(ss, acts, i);
    }
  }

  lemma RunStartsSound(ss: seq<State>, acts: seq<Action>)
    requires IsRun(ss, acts)
    ensures Sound(ss[0])
  {
    assert IsStep(ss, acts, 0);
    InitialInv(ss[0]);
    Close(ss[0]);
  }

  lemma RunStepSound(ss: seq<State>, acts: seq<Action>, i: nat)
    requires IsRun(ss, acts) && 0 < i < |ss| && Sound(ss[i - 1])
    ensures Sound(ss[i])
  {
    assert IsStep(ss, acts, i - 1);
    NextKeeps(ss[i - 1], acts[i - 1]);
  }

  lemma RunKeepsInv(ss: seq<State>, acts: seq<Action>, i: nat)
    requires IsRun(ss, acts) && i < |ss|
    ensures Inv(ss[i])
  {
    RunIsSound(ss, acts, i);
    Open(ss[i]);
  }

  /** s occurs in some run. */
  ghost predicate Reachable(s: State)
  {
    exists ss, acts :: IsRun(ss, acts) && s in ss
  }

  lemma ReachableSound(s: State)
    requires Reachable(s)
    ensures Sound(s)
  {
    var ss, acts :| IsRun(ss, acts) && s in ss;
    var i :| 0 <= i < |ss| && ss[i] == s;
    RunIsSound(ss, acts, i);
  }

  lemma ReachableInv(s: State)
    requires Reachable(s)
    ensures Inv(s)
  {
    ReachableSound(s);
    Open(s);
  }

  // ---------------------------------------------------------------- the client bound

  lemma SafeState(s: State)
    requires Sound(s)
    ensures RingFifo.Inv(s.ring) && RingFifo.Bounded(s.ring) && |s.live| <= s.bound
    ensures !s.off.Exhausted? && (s.off.Acquiring? ==> s.pool.head != INVALID)
            && s.pool.acquirer != FreeList.HaveHead(INVALID)
  {
    Open(s);
    if s.off.Acquiring? { SlotAvailable(s); }
  }

  lemma RunIsSafe(ss: seq<State>, acts: seq<Action>, i: nat)
    requires IsRun(ss, acts) && i < |ss|
    ensures RingFifo.Inv(ss[i].ring) && RingFifo.Bounded(ss[i].ring) && |ss[i].live| <= ss[i].bound
    ensures !ss[i].off.Exhausted? && (ss[i].off.Acquiring? ==> ss[i].pool.head != INVALID)
    ensures ss[i].pool.acquirer != FreeList.HaveHead(INVALID)
  {
    RunIsSound(ss, acts, i);
    SafeState(ss[i]);
  }

  /** With at most min(ring size, pool size - 1) unreleased requests, no ticket ever reaches a slot whose
      previous ticket is untaken, and acquire never sees an empty list. */
  lemma BoundMakesSafe(ss: seq<State>, acts: seq<Action>, i: nat)
    requires IsRun(ss, acts) && i < |acts|
    ensures RingFifo.Bounded(ss[i].ring) && |ss[i].live| <= ss[i].bound
    ensures !ss[i].off.Exhausted? && (ss[i].off.Acquiring? ==> ss[i].pool.head != INVALID)
    ensures acts[i] != ByOffload(AcquireFail)
    ensures acts[i].ByApp? && acts[i].app.PostStore? ==>
              acts[i].app.thread < |ss[i + 1].apps| && ss[i + 1].apps[acts[i].app.thread].Idle?
  {
    RunIsSafe(ss, acts, i);
    assert IsStep(ss, acts, i);
    StepIsSafe(ss[i], acts[i]);
  }

  lemma StepIsSafe(s: State, a: Action)
    requires RingFifo.Inv(s.ring) && s.pool.acquirer != FreeList.HaveHead(INVALID) && Enabled(s, a)
    ensures a != ByOffload(AcquireFail)
    ensures a.ByApp? && a.app.PostStore? ==> a.app.thread < |Next(s, a).apps| && Next(s, a).apps[a.app.thread].Idle?
  {
    if a.ByApp? && a.app.PostStore? { StoredAtOnce(s, a.app.thread); }
  }

  lemma StoredAtOnce(s: State, t: nat)
    requires RingFifo.Inv(s.ring) && AppEnabled(s, PostStore(t))
    ensures PostStoreStep(s, t).apps[t].Idle?
  {
    RingFifo.StoreSucceeds(s.ring, t);
  }

  /** The action of the ring a step of the engine performs, if any. */
  function RingAction(s: State, a: Action): Option<Ring.Action>
  {
    match a
    case ByApp(PostTicket(t)) => if t < |s.apps| && s.apps[t].Invalidated? then Some(Ring.FetchAdd(t, s.apps[t].post))
      else None
    case ByApp(PostStore(t)) => Some(Ring.Store(t))
    case ByOffload(DequeueLoadTail) => Some(Ring.LoadTail)
    case ByOffload(DequeueLoadHead) => Some(Ring.LoadHead)
    case ByOffload(DequeueCas) => Some(Ring.CasTail)
    case ByOffload(DequeueExchange) => Some(Ring.Exchange)
    case _ => None
  }

  lemma AppRingStep(s: State, a: AppAction)
    requires AppEnabled(s, a) && |s.ring.slots| == s.ring.size > 0
    ensures match RingAction(s, ByApp(a))
            case None => AppNext(s, a).ring == s.ring
            case Some(r) => Ring.Enabled(s.ring, r) && AppNext(s, a).ring == Ring.Next(s.ring, r)
  {
  }

  lemma OffloadRingStep(s: State, a: OffloadAction)
    requires OffloadEnabled(s, a) && |s.ring.slots| == s.ring.size > 0
    ensures match RingAction(s, ByOffload(a))
            case None => OffloadNext(s, a).ring == s.ring
            case Some(r) => Ring.Enabled(s.ring, r) && OffloadNext(s, a).ring == Ring.Next(s.ring, r)
  {
  }

  /** The engine touches the ring only through the ring's own actions. */
  lemma RingOnlyByActions(s: State, a: Action)
    requires Enabled(s, a) && |s.ring.slots| == s.ring.size > 0
    ensures match RingAction(s, a)
            case None => Next(s, a).ring == s.ring
            case Some(r) => Ring.Enabled(s.ring, r) && Next(s, a).ring == Ring.Next(s.ring, r)
  {
    match a
    case ByApp(app) => AppRingStep(s, app);
    case ByOffload(off) => OffloadRingStep(s, off);
  }

  lemma RingStepLinearized(s: State, s': State, r: Option<Ring.Action>)
    requires RingFifo.Inv(s.ring) && RingFifo.Linearized(s.ring) && RingFifo.Bounded(s'.ring)
    requires match r
             case None => s'.ring == s.ring
             case Some(x) => Ring.Enabled(s.ring, x) && s'.ring == Ring.Next(s.ring, x)
    ensures RingFifo.Inv(s'.ring) && RingFifo.Linearized(s'.ring)
  {
    if r.Some? { RingFifo.NextLinearized(s.ring, r.value); }
  }

  lemma EngineStepLinearized(s: State, a: Action, s': State)
    requires Enabled(s, a) && RingFifo.Inv(s.ring) && RingFifo.Linearized(s.ring)
    requires s' == Next(s, a) && RingFifo.Bounded(s'.ring)
    ensures RingFifo.Inv(s'.ring) && RingFifo.Linearized(s'.ring)
  {
    RingOnlyByActions(s, a);
    RingStepLinearized(s, s', RingAction(s, a));
  }

  lemma RunStepLinearized(ss: seq<State>, acts: seq<Action>, i: nat)
    requires IsRun(ss, acts) && i < |acts| && RingFifo.Inv(ss[i].ring) && RingFifo.Linearized(ss[i].ring)
    ensures RingFifo.Inv(ss[i + 1].ring) && RingFifo.Linearized(ss[i + 1].ring)
  {
    RunIsSafe(ss, acts, i + 1);
    assert IsStep(ss, acts, i);
    EngineStepLinearized(ss[i], acts[i], ss[i + 1]);
  }

  lemma RunStartsLinearized(ss: seq<State>, acts: seq<Action>)
    requires IsRun(ss, acts)
    ensures RingFifo.Inv(ss[0].ring) && RingFifo.Linearized(ss[0].ring)
  {
    assert IsStep(ss, acts, 0);
    RingFifo.InitialInv(ss[0].ring.exponent, |ss[0].apps|);
  }

  /** Inside the engine the ring is linearizable to the locked queue with no assumption beyond the client bound. */
  lemma {:induction false} EngineQueueLinearizable(ss: seq<State>, acts: seq<Action>, i: nat)
    requires IsRun(ss, acts) && i < |ss|
    ensures RingFifo.Inv(ss[i].ring) && RingFifo.Linearized(ss[i].ring)
  {
    if i == 0 {
      RunStartsLinearized(ss, acts);
    } else {
      EngineQueueLinearizable(ss, acts, i - 1);
      RunStepLinearized(ss, acts, i - 1);
    }
  }

  // ---------------------------------------------------------------- requests move forward

  function Rank(g: Stage): nat
  {
    match g
    case Waiting => 0
    case Fresh(_) => 1
    case Published(_) => 2
    case Complete(_, _) => 3
    case Consumed(_) => 4
    case Released => 5
  }

  /** A step changes the stage of at most the next stage of one request, never its slot or published status. */
  ghost predicate Forward(g: Stage, g': Stage)
  {
    g' == g || (Rank(g') == Rank(g) + 1 && (HasSlot(g) && HasSlot(g') ==> g'.slot == g.slot))
  }

  lemma AppForward(s: State, a: AppAction, p: nat)
    requires Sizes(s) && AppsOk(s) && AppEnabled(s, a) && p < |s.stage|
    ensures p < |AppNext(s, a).stage| && Forward(s.stage[p], AppNext(s, a).stage[p])
  {
  }

  lemma OffloadForward(s: State, a: OffloadAction, p: nat)
    requires Sizes(s) && InHandOk(s) && UsedOk(s) && OffloadEnabled(s, a) && p < |s.stage|
    ensures p < |OffloadNext(s, a).stage| && Forward(s.stage[p], OffloadNext(s, a).stage[p])
  {
    if a.SweepMarkDone? { EngineOffload.MarkedPublished(s); }
  }

  // ---------------------------------------------------------------- end to end

  /** The status of a true answer of PMPI_Test on the operation started by post p's command, if this step is one. */
  function TrueAnswer(s: State, a: Action, p: nat): Option<Status>
  {
    if a.ByApp? then None
    else if a.off.FirstTest? && a.off.flag && s.off.Testing? && s.off.slot < |s.requests|
            && (s.requests[s.off.slot] == Active(p) || (s.requests[s.off.slot].Null? && s.off.post == p))
    then Some(a.off.status)
    else if a.off.SweepTest? && a.off.flag && s.off.Sweeping? && s.off.pos < |s.used|
            && s.used[s.off.pos] < |s.requests| && s.requests[s.used[s.off.pos]] == Active(p)
    then Some(a.off.status)
    else None
  }

  function StoredFor(s: State, p: nat): Option<Status>
  {
    if p < |s.stored| then s.stored[p] else None
  }

  lemma AppStoresNothing(s: State, a: AppAction, p: nat)
    requires AppEnabled(s, a)
    ensures StoredFor(AppNext(s, a), p) == StoredFor(s, p)
  {
  }

  /** The engine stores a status for a post exactly when the library says its operation is complete, and at most
      once. */
  lemma OffloadStores(s: State, a: OffloadAction, p: nat)
    requires Sizes(s) && InHandOk(s) && UsedOk(s) && RequestsOk(s) && StoredOk(s) && MarksOk(s)
    requires OffloadEnabled(s, a)
    ensures var answer := TrueAnswer(s, ByOffload(a), p);
            StoredFor(OffloadNext(s, a), p) == (if answer.Some? then answer else StoredFor(s, p))
            && (answer.Some? ==> StoredFor(s, p).None?)
  {
    if a.FirstTest? { EngineOffload.FirstOp(s); }
    if a.SweepTest? && s.off.pos < |s.used| { EngineOffload.SweptOp(s); EngineOffload.SweptPublished(s); }
  }

  lemma RunStores(ss: seq<State>, acts: seq<Action>, i: nat, p: nat)
    requires IsRun(ss, acts) && i < |acts|
    ensures var answer := TrueAnswer(ss[i], acts[i], p);
            StoredFor(ss[i + 1], p) == (if answer.Some? then answer else StoredFor(ss[i], p))
            && (answer.Some? ==> StoredFor(ss[i], p).None?)
  {
    RunIsSound(ss, acts, i);
    assert IsStep(ss, acts, i);
    StepStores(ss[i], acts[i], p);
  }

  lemma StepStores(s: State, a: Action, p: nat)
    requires Sound(s) && Enabled(s, a)
    ensures var answer := TrueAnswer(s, a, p);
            StoredFor(Next(s, a), p) == (if answer.Some? then answer else StoredFor(s, p))
            && (answer.Some? ==> StoredFor(s, p).None?)
  {
    match a
    case ByApp(app) => AppStoresNothing(s, app, p);
    case ByOffload(off) =>
      Open(s);
      OffloadStores(s, off, p);
  }
}
