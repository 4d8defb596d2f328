/** MPI_Wait and MPI_Waitall as whole calls, on requests that are complete when no other thread interferes. */
module Waitall {
  import FreeList
  import opened Engine
  import opened EngineInv
  import EngineApp
  import opened OffloadEngine

  /** What wait needs to find its status without spinning. */
  predicate CanFind(s: State, t: nat, p: nat, ignore: bool)
  {
    && t < |s.apps| && t < |s.batches| && s.apps[t].Idle? && s.batches[t].next < |s.batches[t].items|
    && s.batches[t].items[s.batches[t].next] == Item(p, ignore)
    && p < |s.holder| && p < |s.cell| && s.cell[p] < |s.cells| && p < |s.stage| && s.stage[p].Complete?
    && var slot := s.stage[p].slot;
       && s.cells[s.cell[p]] == slot && slot != INVALID
       && slot < |s.done| && s.done[slot] && slot < |s.statuses| && s.statuses[slot] == s.stage[p].status
  }

  function Copied(s: State, p: nat, ignore: bool): Option<Status>
    requires p < |s.stage| && s.stage[p].Complete?
  {
    if ignore then None else Some(s.stage[p].status)
  }

  /** The status has been copied; the slot is still the request's. */
  function Found(s: State, t: nat, p: nat, ignore: bool): State
    requires CanFind(s, t, p, ignore)
  {
    Begun(s, t, p, ignore, WaitClear(p, s.stage[p].slot, Copied(s, p, ignore)))
  }

  /** The wait has begun; `a` is where it stands. */
  function Begun(s: State, t: nat, p: nat, ignore: bool, a: AppPc): State
    requires CanFind(s, t, p, ignore)
  {
    var b := s.batches[t];
    s.(batches := s.batches[t := Batch(b.items, b.next + 1)], holder := s.holder[p := InCall(t)],
       apps := s.apps[t := a])
  }

  method FindSlot(e: OffloadEngine, t: nat, ghost p: nat, ghost ignore: bool)
    requires e.Valid() && CanFind(e.state, t, p, ignore)
    modifies e, e.queue, e.queue.elements, e.pool, e.pool.nexts, e.pool.done, e.pool.statuses, e.pool.requests
    ensures e.Valid() && e.state == Begun(old(e.state), t, p, ignore, WaitFlag(p, old(e.state.stage[p].slot), ignore))
  {
    ghost var s := e.state;
    e.WaitNext(t);
    while e.apps[t].WaitCell?
      invariant e.Valid()
      invariant e.state == Begun(s, t, p, ignore, WaitCell(p, ignore))
                || e.state == Begun(s, t, p, ignore, WaitFlag(p, s.stage[p].slot, ignore))
      decreases e.state.apps[t].WaitCell?
    {
      e.WaitLoadCell(t);
    }
  }

  method FindFlag(e: OffloadEngine, t: nat, ghost p: nat, ghost ignore: bool)
    requires e.Valid() && CanFind(e.state, t, p, ignore)
    modifies e, e.queue, e.queue.elements, e.pool, e.pool.nexts, e.pool.done, e.pool.statuses, e.pool.requests
    ensures e.Valid() && e.state == Begun(old(e.state), t, p, ignore, WaitCopy(p, old(e.state.stage[p].slot), ignore))
  {
    ghost var s, slot := e.state, e.state.stage[p].slot;
    FindSlot(e, t, p, ignore);
    while e.apps[t].WaitFlag?
      invariant e.Valid()
      invariant e.state == Begun(s, t, p, ignore, WaitFlag(p, slot, ignore))
                || e.state == Begun(s, t, p, ignore, WaitCopy(p, slot, ignore))
      decreases e.state.apps[t].WaitFlag?
    {
      e.WaitLoadFlag(t);
    }
  }

  method Find(e: OffloadEngine, t: nat, ghost p: nat, ghost ignore: bool)
    requires e.Valid() && CanFind(e.state, t, p, ignore)
    modifies e, e.queue, e.queue.elements, e.pool, e.pool.nexts, e.pool.done, e.pool.statuses, e.pool.requests
    ensures e.Valid() && e.state == Found(old(e.state), t, p, ignore)
  {
    FindFlag(e, t, p, ignore);
    e.WaitCopyStatus(t);
  }

  /** The slot can go back: it is out, and nothing else of the request is in the way. */
  predicate CanRelease(s: State, t: nat, p: nat, slot: nat, copied: Option<Status>)
  {
    && t < |s.apps| && s.apps[t] == WaitClear(p, slot, copied)
    && slot < |s.done| && p < |s.stage| && p < |s.result| && p < |s.holder| && p < |s.cell| && s.cell[p] < |s.cellOwner|
    && FreeList.Enabled(s.pool, FreeList.BeginRelease(t, slot)) && |s.pool.nexts| == |s.pool.place|
  }

  function Pushed(p: FreeList.Pool, t: nat, slot: nat): FreeList.Pool
    requires FreeList.Enabled(p, FreeList.BeginRelease(t, slot)) && |p.nexts| == |p.place|
  {
    p.(head := slot, nexts := p.nexts[slot := p.head], stack := p.stack + [slot],
       place := p.place[slot := FreeList.Free(|p.stack|)])
  }

  function Returned(s: State, t: nat, p: nat, slot: nat, copied: Option<Status>): State
    requires CanRelease(s, t, p, slot, copied)
  {
    s.(done := s.done[slot := false], pool := Pushed(s.pool, t, slot), apps := s.apps[t := Idle],
       stage := s.stage[p := Released],
       result := s.result[p := copied], holder := s.holder[p := Nobody], cellOwner := s.cellOwner[s.cell[p] := None],
       live := s.live - {p})
  }

  method Return(e: OffloadEngine, t: nat, ghost p: nat, ghost slot: nat, ghost copied: Option<Status>)
    requires e.Valid() && CanRelease(e.state, t, p, slot, copied)
    modifies e, e.queue, e.queue.elements, e.pool, e.pool.nexts, e.pool.done, e.pool.statuses, e.pool.requests
    ensures e.Valid() && e.state == Returned(old(e.state), t, p, slot, copied)
  {
    e.WaitClearFlag(t);
    e.ReleaseLoad(t);
    e.ReleaseLink(t);
    e.ReleaseSwap(t, false);
  }

  // ---------------------------------------------------------------- what a whole wait keeps and does

  /** The accesses of a wait up to its copy of the status, none of which has to be repeated. */
  lemma FindSteps(s: State, t: nat, p: nat, ignore: bool)
    requires CanFind(s, t, p, ignore)
    ensures var s0 := Begun(s, t, p, ignore, WaitCell(p, ignore));
            var s1 := Begun(s, t, p, ignore, WaitFlag(p, s.stage[p].slot, ignore));
            && AppEnabled(s, WaitNext(t)) && s0 == WaitNextStep(s, t)
            && AppEnabled(s0, WaitLoadCell(t)) && s1 == WaitLoadCellStep(s0, t)
    ensures var s1 := Begun(s, t, p, ignore, WaitFlag(p, s.stage[p].slot, ignore));
            var s2 := Begun(s, t, p, ignore, WaitCopy(p, s.stage[p].slot, ignore));
            && AppEnabled(s1, WaitLoadFlag(t)) && s2 == WaitLoadFlagStep(s1, t)
            && AppEnabled(s2, WaitCopyStatus(t)) && Found(s, t, p, ignore) == WaitCopyStatusStep(s2, t)
  {
  }

  lemma BegunKeeps(s: State, t: nat, p: nat, ignore: bool)
    requires Sound(s) && CanFind(s, t, p, ignore)
    ensures Sound(Begun(s, t, p, ignore, WaitFlag(p, s.stage[p].slot, ignore)))
  {
    FindSteps(s, t, p, ignore);
    EngineApp.WaitNextKeeps(s, t);
    EngineApp.WaitLoadCellKeeps(Begun(s, t, p, ignore, WaitCell(p, ignore)), t);
  }

  lemma FlaggedKeeps(s: State, t: nat, p: nat, ignore: bool)
    requires Sound(s) && CanFind(s, t, p, ignore)
    ensures Sound(Begun(s, t, p, ignore, WaitCopy(p, s.stage[p].slot, ignore)))
  {
    FindSteps(s, t, p, ignore);
    BegunKeeps(s, t, p, ignore);
    EngineApp.WaitLoadFlagKeeps(Begun(s, t, p, ignore, WaitFlag(p, s.stage[p].slot, ignore)), t);
  }

  lemma FoundKeeps(s: State, t: nat, p: nat, ignore: bool)
    requires Sound(s) && CanFind(s, t, p, ignore)
    ensures Sound(Found(s, t, p, ignore))
  {
    FindSteps(s, t, p, ignore);
    FlaggedKeeps(s, t, p, ignore);
    EngineApp.WaitCopyStatusKeeps(Begun(s, t, p, ignore, WaitCopy(p, s.stage[p].slot, ignore)), t);
  }

  lemma ClearedKeeps(s: State, t: nat, p: nat, slot: nat, copied: Option<Status>) returns (s': State)
    requires Sound(s) && CanRelease(s, t, p, slot, copied)
    ensures Sound(s') && AppEnabled(s, WaitClearFlag(t)) && s' == WaitClearFlagStep(s, t)
  {
    s' := WaitClearFlagStep(s, t);
    EngineApp.WaitClearFlagKeeps(s, t);
  }

  lemma LoadedKeeps(s: State, t: nat, p: nat, slot: nat, copied: Option<Status>) returns (s': State)
    requires Sound(s) && CanRelease(s, t, p, slot, copied)
    ensures Sound(s') && AppEnabled(s, WaitClearFlag(t)) && s' == ReleaseLoadStep(WaitClearFlagStep(s, t), t)
  {
    var s1 := ClearedKeeps(s, t, p, slot, copied);
    s' := ReleaseLoadStep(s1, t);
    EngineApp.ReleaseLoadKeeps(s1, t);
  }

  lemma LinkedKeeps(s: State, t: nat, p: nat, slot: nat, copied: Option<Status>) returns (s': State)
    requires Sound(s) && CanRelease(s, t, p, slot, copied)
    ensures Sound(s') && AppEnabled(s, WaitClearFlag(t))
    ensures s' == ReleaseLinkStep(ReleaseLoadStep(WaitClearFlagStep(s, t), t), t)
  {
    var s2 := LoadedKeeps(s, t, p, slot, copied);
    s' := ReleaseLinkStep(s2, t);
    EngineApp.ReleaseLinkKeeps(s2, t);
  }

  /** A release that nobody disturbs puts its slot on top of the chain. */
  lemma PushSteps(p: FreeList.Pool, t: nat, slot: nat)
    requires FreeList.Enabled(p, FreeList.BeginRelease(t, slot)) && |p.nexts| == |p.place|
    ensures var p1 := FreeList.BeginReleaseStep(p, t, slot);
            && FreeList.Enabled(p1, FreeList.LoadHead(t))
            && var p2 := FreeList.LoadHeadStep(p1, t);
               && FreeList.Enabled(p2, FreeList.Link(t))
               && var p3 := FreeList.LinkStep(p2, t);
                  FreeList.Enabled(p3, FreeList.SwapIn(t, false))
                    && FreeList.SwapInStep(p3, t, false) == Pushed(p, t, slot)
  {
  }

  lemma ReturnSteps(s: State, t: nat, p: nat, slot: nat, copied: Option<Status>)
    requires CanRelease(s, t, p, slot, copied)
    ensures AppEnabled(s, WaitClearFlag(t))
    ensures var s1 := WaitClearFlagStep(s, t);
            && AppEnabled(s1, ReleaseLoad(t))
            && var s2 := ReleaseLoadStep(s1, t);
               && AppEnabled(s2, ReleaseLink(t))
               && var s3 := ReleaseLinkStep(s2, t);
                  AppEnabled(s3, ReleaseSwap(t, false))
                    && ReleaseSwapStep(s3, t, false) == Returned(s, t, p, slot, copied)
  {
    PushSteps(s.pool, t, slot);
    assert s.apps[t := Releasing(p, slot, copied)][t := Idle] == s.apps[t := Idle];
    assert s.stage[p := Consumed(slot)][p := Released] == s.stage[p := Released];
  }

  lemma ReturnedKeeps(s: State, t: nat, p: nat, slot: nat, copied: Option<Status>)
    requires Sound(s) && CanRelease(s, t, p, slot, copied)
    ensures Sound(Returned(s, t, p, slot, copied))
  {
    ReturnSteps(s, t, p, slot, copied);
    var s3 := LinkedKeeps(s, t, p, slot, copied);
    EngineApp.ReleaseSwapKeeps(s3, t, false);
  }

  lemma FoundCanRelease(s: State, t: nat, p: nat, ignore: bool)
    requires Sound(s) && CanFind(s, t, p, ignore)
    ensures CanRelease(Found(s, t, p, ignore), t, p, s.stage[p].slot, Copied(s, p, ignore))
  {
    Open(s);
  }

  /** The thread rests between two waits of a Waitall whose element i is complete. */
  predicate Ready(s: State, t: nat, i: nat)
  {
    && t < |s.apps| && t < |s.batches| && s.apps[t].Idle? && s.batches[t].next <= i < |s.batches[t].items|
    && s.batches[t].items[i].post < |s.stage| && s.stage[s.batches[t].items[i].post].Complete?
  }

  /** The element the next wait of the thread is about. */
  function Current(s: State, t: nat): Item
    requires t < |s.batches| && s.batches[t].next < |s.batches[t].items|
  {
    s.batches[t].items[s.batches[t].next]
  }

  lemma ReadyToFind(s: State, t: nat)
    requires Sound(s) && t < |s.batches| && Ready(s, t, s.batches[t].next)
    ensures CanFind(s, t, Current(s, t).post, Current(s, t).ignore)
  {
    Open(s);
  }

  /** What a wait does to the requests: the first on the thread's list is released with its status, no other changes. */
  ghost predicate Waited(s: State, s': State, t: nat, status: Option<Status>)
  {
    && t < |s.batches| && t < |s'.batches| && t < |s'.apps| && s.batches[t].next < |s.batches[t].items|
    && var p := Current(s, t).post;
       && p < |s.stage| == |s.result| && s.stage[p].Complete? && status == Copied(s, p, Current(s, t).ignore)
       && s'.stage == s.stage[p := Released] && s'.result == s.result[p := status]
       && s'.batches[t] == Batch(s.batches[t].items, s.batches[t].next + 1) && s'.apps[t].Idle?
  }

  /** The state after a whole wait on a complete request. */
  function AfterWait(s: State, t: nat, p: nat, ignore: bool): State
    requires CanFind(s, t, p, ignore) && CanRelease(Found(s, t, p, ignore), t, p, s.stage[p].slot, Copied(s, p, ignore))
  {
    Returned(Found(s, t, p, ignore), t, p, s.stage[p].slot, Copied(s, p, ignore))
  }

  lemma WaitKeeps(s: State, t: nat, p: nat, ignore: bool)
    requires Sound(s) && CanFind(s, t, p, ignore)
    ensures CanRelease(Found(s, t, p, ignore), t, p, s.stage[p].slot, Copied(s, p, ignore))
    ensures Sound(AfterWait(s, t, p, ignore))
  {
    FoundKeeps(s, t, p, ignore);
    FoundCanRelease(s, t, p, ignore);
    ReturnedKeeps(Found(s, t, p, ignore), t, p, s.stage[p].slot, Copied(s, p, ignore));
  }

  lemma WaitReleases(s: State, t: nat, p: nat, ignore: bool)
    requires CanFind(s, t, p, ignore) && CanRelease(Found(s, t, p, ignore), t, p, s.stage[p].slot, Copied(s, p, ignore))
    requires |s.stage| == |s.result|
    ensures Waited(s, AfterWait(s, t, p, ignore), t, Copied(s, p, ignore))
  {
  }

  lemma ResultSize(s: State)
    requires Sound(s)
    ensures |s.stage| == |s.result|
  {
    Open(s);
  }

  lemma WaitIs(s: State, t: nat)
    requires Sound(s) && t < |s.batches| && Ready(s, t, s.batches[t].next)
    ensures var p, ignore := Current(s, t).post, Current(s, t).ignore;
            && CanFind(s, t, p, ignore)
               && CanRelease(Found(s, t, p, ignore), t, p, s.stage[p].slot, Copied(s, p, ignore))
            && Sound(AfterWait(s, t, p, ignore)) && Waited(s, AfterWait(s, t, p, ignore), t, Copied(s, p, ignore))
  {
    var p, ignore := Current(s, t).post, Current(s, t).ignore;
    ReadyToFind(s, t);
    WaitKeeps(s, t, p, ignore);
    ResultSize(s);
    WaitReleases(s, t, p, ignore);
  }

  /** MPI_Wait on the next request of the thread's list. */
  method Wait(e: OffloadEngine, t: nat) returns (status: Option<Status>)
    requires e.Valid() && Sound(e.state) && t < |e.state.batches| && Ready(e.state, t, e.state.batches[t].next)
    modifies e, e.queue, e.queue.elements, e.pool, e.pool.nexts, e.pool.done, e.pool.statuses, e.pool.requests
    ensures e.Valid() && Sound(e.state) && Waited(old(e.state), e.state, t, status)
  {
    WaitIs(e.state, t);
    ghost var item, s := Current(e.state, t), e.state;
    Find(e, t, item.post, item.ignore);
    status := e.apps[t].copied;
    Return(e, t, item.post, s.stage[item.post].slot, status);
  }

  // ---------------------------------------------------------------- MPI_Waitall

  function Posts(items: seq<Item>): set<nat>
  {
    set i: nat | i < |items| :: items[i].post
  }

  lemma PostsSnoc(items: seq<Item>, item: Item)
    ensures Posts(items + [item]) == Posts(items) + {item.post}
  {
    var l := items + [item];
    assert l[|items|] == item;
    forall p: nat ensures p in Posts(l) <==> p == item.post || p in Posts(items) {
      if p in Posts(items) { var i: nat :| i < |items| && items[i].post == p; assert l[i].post == p; }
    }
  }

  /** Elements first .. k - 1 have been waited for since s0. */
  ghost predicate WaitedUpTo(s0: State, s: State, t: nat, first: nat, k: nat, statuses: seq<Option<Status>>)
  {
    && t < |s0.batches| && t < |s.batches| && t < |s.apps| && s.apps[t].Idle?
    && var items := s0.batches[t].items;
       && first <= k <= |items| && s.batches[t] == Batch(items, k) && |statuses| == k - first
       && |s.stage| == |s0.stage| == |s.result|
       && (forall p: nat :: p < |s.stage| ==>
          s.stage[p] == if p in Posts(items[first..k]) then Released else s0.stage[p])
       && (forall i :: first <= i < k ==>
             && items[i].post < |s0.stage| && s0.stage[items[i].post].Complete?
             && statuses[i - first] == Copied(s0, items[i].post, items[i].ignore)
             && s.result[items[i].post] == statuses[i - first])
  }

  /** A request stands on one list at one place. */
  ghost predicate ItemsDistinct(items: seq<Item>, first: nat)
  {
    forall i, j :: first <= i < j < |items| ==> items[i].post != items[j].post
  }

  lemma ListDistinct(s: State, t: nat)
    requires Sound(s) && t < |s.batches|
    ensures ItemsDistinct(s.batches[t].items, s.batches[t].next)
  {
    Open(s);
  }

  lemma OneMoreWaited(s0: State, s: State, s': State, t: nat, first: nat, k: nat, statuses: seq<Option<Status>>,
      status: Option<Status>)
    requires WaitedUpTo(s0, s, t, first, k, statuses) && Waited(s, s', t, status) && k < |s0.batches[t].items|
    requires ItemsDistinct(s0.batches[t].items, first)
    ensures WaitedUpTo(s0, s', t, first, k + 1, statuses + [status])
  {
    var items := s0.batches[t].items;
    assert items[first..k + 1] == items[first..k] + [items[k]];
    PostsSnoc(items[first..k], items[k]);
    NotWaitedYet(items, first, k);
  }

  lemma NotWaitedYet(items: seq<Item>, first: nat, k: nat)
    requires ItemsDistinct(items, first) && first <= k < |items|
    ensures items[k].post !in Posts(items[first..k])
  {
  }

  lemma NothingWaited(s: State, t: nat)
    requires Sound(s) && t < |s.apps| && t < |s.batches| && s.apps[t].Idle?
    ensures WaitedUpTo(s, s, t, s.batches[t].next, s.batches[t].next, [])
    ensures ItemsDistinct(s.batches[t].items, s.batches[t].next)
  {
    ListDistinct(s, t);
    NextWithin(s, t);
    ResultSize(s);
    assert s.batches[t].items[s.batches[t].next..s.batches[t].next] == [];
  }

  /** The thread rests and every element still on its list is complete. */
  predicate AllReady(s: State, t: nat)
  {
    && t < |s.apps| && t < |s.batches| && s.apps[t].Idle?
    && forall i :: s.batches[t].next <= i < |s.batches[t].items| ==> Ready(s, t, i)
  }

  lemma StillReady(s: State, s': State, t: nat, status: Option<Status>)
    requires AllReady(s, t) && Waited(s, s', t, status) && ItemsDistinct(s.batches[t].items, s.batches[t].next)
    ensures AllReady(s', t)
  {
    var b := s.batches[t];
    forall i | b.next < i < |b.items| ensures Ready(s', t, i) {
      assert Ready(s, t, i) && b.items[b.next].post != b.items[i].post;
    }
  }

  /** One round of the loop. */
  method WaitForOne(e: OffloadEngine, t: nat) returns (status: Option<Status>)
    requires e.Valid() && Sound(e.state) && AllReady(e.state, t) && e.state.batches[t].next < |e.state.batches[t].items|
    modifies e, e.queue, e.queue.elements, e.pool, e.pool.nexts, e.pool.done, e.pool.statuses, e.pool.requests
    ensures e.Valid() && Sound(e.state) && AllReady(e.state, t) && Waited(old(e.state), e.state, t, status)
  {
    ghost var s := e.state;
    ListDistinct(s, t);
    status := Wait(e, t);
    StillReady(s, e.state, t, status);
  }

  /** The states before each wait and after the last one. */
  ghost predicate Trace(ss: seq<State>, t: nat, statuses: seq<Option<Status>>)
  {
    |ss| == |statuses| + 1 && forall i :: 0 <= i < |statuses| ==> Waited(ss[i], ss[i + 1], t, statuses[i])
  }

  lemma TraceSnoc(ss: seq<State>, t: nat, statuses: seq<Option<Status>>, s: State, status: Option<Status>)
    requires Trace(ss, t, statuses) && Waited(ss[|statuses|], s, t, status)
    ensures Trace(ss + [s], t, statuses + [status])
  {
  }

  lemma {:induction false} TraceWaits(ss: seq<State>, t: nat, statuses: seq<Option<Status>>, n: nat)
    requires Trace(ss, t, statuses) && n <= |statuses| && t < |ss[0].batches|
    requires var b := ss[0].batches[t];
             ItemsDistinct(b.items, b.next)
             && WaitedUpTo(ss[0], ss[0], t, b.next, b.next, [])
    ensures var first := ss[0].batches[t].next; WaitedUpTo(ss[0], ss[n], t, first, first + n, statuses[..n])
  {
    if n == 0 {
      assert statuses[..0] == [];
    } else {
      TraceWaits(ss, t, statuses, n - 1);
      TraceStep(ss, t, statuses, n);
    }
  }

  lemma TraceStep(ss: seq<State>, t: nat, statuses: seq<Option<Status>>, n: nat)
    requires Trace(ss, t, statuses) && 0 < n <= |statuses| && t < |ss[0].batches|
    requires var b := ss[0].batches[t];
             ItemsDistinct(b.items, b.next)
             && WaitedUpTo(ss[0], ss[n - 1], t, b.next, b.next + n - 1, statuses[..n - 1])
    ensures var first := ss[0].batches[t].next; WaitedUpTo(ss[0], ss[n], t, first, first + n, statuses[..n])
  {
    var first := ss[0].batches[t].next;
    assert Waited(ss[n - 1], ss[n - 1 + 1], t, statuses[n - 1]);
    OneMoreWaited(ss[0], ss[n - 1], ss[n], t, first, first + n - 1, statuses[..n - 1], statuses[n - 1]);
    assert statuses[..n] == statuses[..n - 1] + [statuses[n - 1]];
  }

  method WaitLoop(e: OffloadEngine, t: nat) returns (statuses: seq<Option<Status>>, ghost ss: seq<State>)
    requires e.Valid() && Sound(e.state) && AllReady(e.state, t)
    modifies e, e.queue, e.queue.elements, e.pool, e.pool.nexts, e.pool.done, e.pool.statuses, e.pool.requests
    ensures e.Valid() && Sound(e.state) && AllReady(e.state, t) && e.state.batches[t].next == |e.state.batches[t].items|
    ensures Trace(ss, t, statuses) && ss[0] == old(e.state) && ss[|statuses|] == e.state
  {
    statuses, ss := [], [e.state];
    while e.batches[t].next < |e.batches[t].items|
      invariant e.Valid() && Sound(e.state) && AllReady(e.state, t)
      invariant Trace(ss, t, statuses) && ss[0] == old(e.state) && ss[|statuses|] == e.state
      decreases |e.state.batches[t].items| - e.state.batches[t].next
    {
      var status := WaitForOne(e, t);
      TraceSnoc(ss, t, statuses, e.state, status);
      statuses, ss := statuses + [status], ss + [e.state];
    }
    NextWithin(e.state, t);
  }

  lemma NextWithin(s: State, t: nat)
    requires Sound(s) && t < |s.batches|
    ensures s.batches[t].next <= |s.batches[t].items|
  {
    Open(s);
  }

  /** MPI_Waitall on complete requests, undisturbed: one status each, in the order of the array, every request of the
      array released and no other touched. */
  method Waitall(e: OffloadEngine, t: nat) returns (statuses: seq<Option<Status>>)
    requires e.Valid() && Sound(e.state) && AllReady(e.state, t)
    modifies e, e.queue, e.queue.elements, e.pool, e.pool.nexts, e.pool.done, e.pool.statuses, e.pool.requests
    ensures e.Valid() && Sound(e.state)
    ensures WaitedUpTo(old(e.state), e.state, t, old(e.state.batches[t].next),
                       |old(e.state.batches[t].items)|, statuses)
  {
    NothingWaited(e.state, t);
    ghost var ss;
    statuses, ss := WaitLoop(e, t);
    TraceWaits(ss, t, statuses, |statuses|);
    assert statuses[..|statuses|] == statuses;
  }
}
