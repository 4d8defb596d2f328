/** From the arguments of a post to the handle in its slot: what the call returned is kept there until the library says
    the operation is complete, and that answer is given on it. */
module EngineHandles {
  import FreeList
  import opened Engine
  import opened EngineInv
  import opened EngineRuns
  import EngineOffload
  import EngineNull
  import EngineDrain
  import EngineTheorems

  // ---------------------------------------------------------------- a post is what its caller asked for

  ghost predicate PostIs(s: State, p: nat, t: nat, c: nat, nul: bool)
  {
    && p < |s.stage| == |s.nullRequest| == |s.cell| == |s.thread|
    && s.nullRequest[p] == nul && s.cell[p] == c && s.thread[p] == t
  }

  lemma BeginKeepsPost(s: State, u: nat, d: nat, other: bool, p: nat, t: nat, c: nat, nul: bool)
    requires AppEnabled(s, PostBegin(u, d, other)) && PostIs(s, p, t, c, nul)
    ensures PostIs(PostBeginStep(s, u, d, other), p, t, c, nul)
  {
  }

  lemma CallLeavesPosts(s: State, a: AppAction)
    requires AppEnabled(s, a) && !a.PostBegin?
    ensures var s' := AppNext(s, a);
            s'.nullRequest == s.nullRequest && s'.cell == s.cell && s'.thread == s.thread && |s'.stage| == |s.stage|
  {
  }

  lemma AppKeepsPost(s: State, a: AppAction, p: nat, t: nat, c: nat, nul: bool)
    requires AppEnabled(s, a) && PostIs(s, p, t, c, nul)
    ensures PostIs(AppNext(s, a), p, t, c, nul)
  {
    if a.PostBegin? { BeginKeepsPost(s, a.thread, a.cell, a.nullRequest, p, t, c, nul); }
      else { CallLeavesPosts(s, a); }
  }

  lemma OffloadKeepsPost(s: State, a: OffloadAction, p: nat, t: nat, c: nat, nul: bool)
    requires OffloadEnabled(s, a) && PostIs(s, p, t, c, nul)
    ensures PostIs(OffloadNext(s, a), p, t, c, nul)
  {
  }

  lemma RunStepKeepsPost(ss: seq<State>, acts: seq<Action>, i: nat, p: nat, t: nat, c: nat, nul: bool)
    requires IsRun(ss, acts) && i < |acts| && PostIs(ss[i], p, t, c, nul)
    ensures PostIs(ss[i + 1], p, t, c, nul)
  {
    assert IsStep(ss, acts, i);
    match acts[i]
    case ByApp(app) => AppKeepsPost(ss[i], app, p, t, c, nul);
    case ByOffload(off) => OffloadKeepsPost(ss[i], off, p, t, c, nul);
  }

  lemma {:induction false} RunKeepsPost(ss: seq<State>, acts: seq<Action>, i: nat, n: nat, p: nat, t: nat, c: nat,
      nul: bool)
    requires IsRun(ss, acts) && i <= n < |ss| && PostIs(ss[i], p, t, c, nul)
    ensures PostIs(ss[n], p, t, c, nul)
    decreases n - i
  {
    if i < n {
      RunStepKeepsPost(ss, acts, i, p, t, c, nul);
      RunKeepsPost(ss, acts, i + 1, n, p, t, c, nul);
    }
  }

  lemma BeginsPost(ss: seq<State>, acts: seq<Action>, b: nat, t: nat, c: nat, nul: bool)
    requires IsRun(ss, acts) && b < |acts| && acts[b] == ByApp(PostBegin(t, c, nul))
    ensures PostIs(ss[b + 1], |ss[b].stage|, t, c, nul)
  {
    RunIsSound(ss, acts, b);
    assert IsStep(ss, acts, b);
    Begins(ss[b], t, c, nul);
  }

  lemma Begins(s: State, t: nat, c: nat, nul: bool)
    requires Sound(s) && AppEnabled(s, PostBegin(t, c, nul))
    ensures PostIs(PostBeginStep(s, t, c, nul), |s.stage|, t, c, nul)
  {
    PostSizes(s);
  }

  lemma PostSizes(s: State)
    requires Sound(s)
    ensures |s.nullRequest| == |s.cell| == |s.thread| == |s.stage|
  {
    Open(s);
  }

  /** A post keeps its caller's thread, cell and kind of call. */
  lemma PostedAs(ss: seq<State>, acts: seq<Action>, b: nat, n: nat, t: nat, c: nat, nul: bool)
    requires IsRun(ss, acts) && b < n < |ss| && acts[b] == ByApp(PostBegin(t, c, nul))
    ensures PostIs(ss[n], |ss[b].stage|, t, c, nul)
  {
    BeginsPost(ss, acts, b, t, c, nul);
    RunKeepsPost(ss, acts, b + 1, n, |ss[b].stage|, t, c, nul);
  }

  // ---------------------------------------------------------------- its handle

  /** What a call of this kind leaves in the slot when it returns this request. */
  function Left(nul: bool, request: Request): Request
  {
    if nul then Null else request
  }

  /** Post p has been called and its slot holds h until its operation tests complete, and the null request afterwards,
      as long as the slot is its own. */
  ghost predicate Holds(s: State, p: nat, h: Request)
  {
    && p < |s.stage| == |s.stored| && !s.stage[p].Waiting? && !s.stage[p].Fresh? && !(s.off.Calling? && s.off.post == p)
    && (s.stage[p].Published? || s.stage[p].Complete? ==>
          s.stage[p].slot < |s.requests| && s.requests[s.stage[p].slot] == if s.stored[p].None? then h else Null)
  }

  lemma ApartKeepsHandle(s: State, s': State, p: nat, h: Request)
    requires Holds(s, p, h) && EngineNull.Apart(s, s')
    ensures Holds(s', p, h)
  {
  }

  lemma PostKeepsHandle(s: State, t: nat, c: nat, nul: bool, p: nat, h: Request)
    requires AppEnabled(s, PostBegin(t, c, nul)) && Holds(s, p, h)
    ensures Holds(PostBeginStep(s, t, c, nul), p, h)
  {
  }

  lemma ReleaseKeepsHandle(s: State, a: AppAction, p: nat, h: Request)
    requires AppEnabled(s, a) && Holds(s, p, h) && (a.WaitClearFlag? || a.ReleaseSwap?)
    ensures Holds(AppNext(s, a), p, h)
  {
  }

  lemma AppKeepsHandle(s: State, a: AppAction, p: nat, h: Request)
    requires AppEnabled(s, a) && Holds(s, p, h)
    ensures Holds(AppNext(s, a), p, h)
  {
    if a.PostBegin? {
      PostKeepsHandle(s, a.thread, a.cell, a.nullRequest, p, h);
    } else if a.WaitClearFlag? || a.ReleaseSwap? {
      ReleaseKeepsHandle(s, a, p, h);
    } else {
      EngineNull.CallIsApart(s, a);
      ApartKeepsHandle(s, AppNext(s, a), p, h);
    }
  }

  /** Another post's slot is another slot. */
  lemma OtherSlot(s: State, p: nat, q: nat)
    requires SlotsOk(s) && p < |s.stage| && q < |s.stage| && p != q && HasSlot(s.stage[p]) && HasSlot(s.stage[q])
    ensures s.stage[p].slot != s.stage[q].slot
  {
  }

  lemma CallKeepsHandle(s: State, request: Request, p: nat, h: Request)
    requires Sound(s) && OffloadEnabled(s, CallMpi(request)) && Holds(s, p, h)
    ensures Holds(CallMpiStep(s, request), p, h)
  {
    Open(s);
    if HasSlot(s.stage[p]) { OtherSlot(s, p, s.off.post); }
  }

  /** A test concerns p's slot and p's status together, or neither. */
  lemma TestKeepsHandle(s: State, slot: nat, op: nat, flag: bool, status: Status, p: nat, h: Request)
    requires Holds(s, p, h) && slot < |s.requests| && slot < |s.statuses| && op < |s.stored| && op < |s.tests|
    requires s.stored[op].None?
    requires s.stage[p].Published? || s.stage[p].Complete? ==> (op == p <==> slot == s.stage[p].slot)
    requires op == p ==> s.stage[p].Published?
    ensures Holds(TestedState(s, slot, op, flag, status), p, h)
  {
  }

  lemma FirstSlot(s: State, p: nat)
    requires Sound(s) && s.off.Testing? && p < |s.stage| && s.off.slot < |s.requests|
    ensures s.off.post < |s.stage| && s.stage[s.off.post] == Published(s.off.slot) && s.off.post < |s.stored|
    ensures s.stored[s.off.post].None?
    ensures s.requests[s.off.slot].Active? ==> s.requests[s.off.slot].op == s.off.post
    ensures s.stage[p].Published? || s.stage[p].Complete? ==> (s.off.post == p <==> s.off.slot == s.stage[p].slot)
  {
    Open(s);
    EngineOffload.FirstOp(s);
    FirstUnstored(s);
    if s.off.post != p && HasSlot(s.stage[p]) { OtherSlot(s, p, s.off.post); }
  }

  lemma FirstUnstored(s: State)
    requires Sizes(s) && StoredOk(s) && MarksOk(s) && s.off.Testing?
    requires s.off.post < |s.stage| && s.stage[s.off.post].Published?
    ensures s.stored[s.off.post].None?
  {
  }

  lemma FirstTestKeepsHandle(s: State, flag: bool, status: Status, p: nat, h: Request)
    requires Sound(s) && OffloadEnabled(s, FirstTest(flag, status)) && Holds(s, p, h)
    ensures Holds(FirstTestStep(s, flag, status), p, h)
  {
    FirstSlot(s, p);
    TestKeepsHandle(s, s.off.slot, s.off.post, flag, status, p, h);
  }

  lemma SweptSlot(s: State, p: nat)
    requires Sound(s) && s.off.Sweeping? && s.off.pos < |s.used| && p < |s.stage|
    ensures var x := s.used[s.off.pos];
            && x < |s.requests| && s.requests[x].Active?
            && var op := s.requests[x].op;
               && op < |s.stage| == |s.stored| && s.stage[op] == Published(x) && s.stored[op].None?
               && (s.stage[p].Published? || s.stage[p].Complete? ==> (op == p <==> x == s.stage[p].slot))
  {
    Open(s);
    EngineOffload.SweptOp(s);
    EngineOffload.SweptPublished(s);
    SweptUnstored(s);
    var op := s.owner[s.used[s.off.pos]];
    if op != p && HasSlot(s.stage[p]) { OtherSlot(s, p, op); }
  }

  lemma SweptUnstored(s: State)
    requires Sizes(s) && StoredOk(s) && MarksOk(s) && s.off.Sweeping? && s.off.pos < |s.used|
    requires s.used[s.off.pos] < |s.owner| && s.owner[s.used[s.off.pos]] < |s.stage|
    requires s.stage[s.owner[s.used[s.off.pos]]].Published?
    ensures s.stored[s.owner[s.used[s.off.pos]]].None?
  {
  }

  lemma SweepTestKeepsHandle(s: State, flag: bool, status: Status, p: nat, h: Request)
    requires Sound(s) && OffloadEnabled(s, SweepTest(flag, status)) && Holds(s, p, h)
    ensures Holds(SweepTestStep(s, flag, status), p, h)
  {
    if s.off.pos < |s.used| {
      SweptSlot(s, p);
      var x := s.used[s.off.pos];
      TestKeepsHandle(s, x, s.requests[x].op, flag, status, p, h);
    }
  }

  lemma SweptMark(s: State)
    requires Sound(s) && OffloadEnabled(s, SweepMarkDone)
    ensures s.stage[s.owner[s.used[s.off.pos]]] == Published(s.used[s.off.pos])
  {
    Open(s);
    EngineOffload.MarkedPublished(s);
  }

  lemma Parts(s: State)
    requires Sound(s)
    ensures Sizes(s) && InHandOk(s)
  {
    Open(s);
  }

  /** The other steps write neither requests nor statuses; a stage that changes keeps its slot. */
  lemma MarkKeepsHandle(s: State, a: OffloadAction, p: nat, h: Request)
    requires Sound(s) && OffloadEnabled(s, a) && Holds(s, p, h) && (a.FirstMark? || a.SweepMarkDone?)
    ensures Holds(OffloadNext(s, a), p, h)
  {
    Parts(s);
    if a.SweepMarkDone? { SweptMark(s); }
    MarkedKeepsHandle(s, a, p, h);
  }

  lemma MarkedKeepsHandle(s: State, a: OffloadAction, p: nat, h: Request)
    requires InHandOk(s) && OffloadEnabled(s, a) && Holds(s, p, h) && (a.FirstMark? || a.SweepMarkDone?)
    requires a.SweepMarkDone? ==> s.stage[s.owner[s.used[s.off.pos]]] == Published(s.used[s.off.pos])
    ensures Holds(OffloadNext(s, a), p, h)
  {
  }

  lemma StartKeepsHandle(s: State, a: OffloadAction, p: nat, h: Request)
    requires InHandOk(s) && OffloadEnabled(s, a) && Holds(s, p, h)
    requires a.AcquireLoad? || a.AcquireNext? || a.AcquireSwap? || a.AcquireFail? || a.ClearDone? || a.Publish?
    ensures Holds(OffloadNext(s, a), p, h)
  {
  }

  lemma LoopKeepsHandle(s: State, a: OffloadAction, p: nat, h: Request)
    requires OffloadEnabled(s, a) && Holds(s, p, h)
    requires a.Loop? || a.DequeueLoadTail? || a.DequeueLoadHead? || a.DequeueCas? || a.DequeueExchange?
            || a.SweepEraseSlot?
    ensures Holds(OffloadNext(s, a), p, h)
  {
  }

  lemma OffloadKeepsHandle(s: State, a: OffloadAction, p: nat, h: Request)
    requires Sound(s) && OffloadEnabled(s, a) && Holds(s, p, h)
    ensures Holds(OffloadNext(s, a), p, h)
  {
    if a.CallMpi? {
      CallKeepsHandle(s, a.request, p, h);
    } else if a.FirstTest? {
      FirstTestKeepsHandle(s, a.flag, a.status, p, h);
    } else if a.SweepTest? {
      SweepTestKeepsHandle(s, a.flag, a.status, p, h);
    } else if a.FirstMark? || a.SweepMarkDone? {
      MarkKeepsHandle(s, a, p, h);
    } else {
      Parts(s);
      RestKeepsHandle(s, a, p, h);
    }
  }

  lemma RestKeepsHandle(s: State, a: OffloadAction, p: nat, h: Request)
    requires InHandOk(s) && OffloadEnabled(s, a) && Holds(s, p, h)
    requires !a.CallMpi? && !a.FirstTest? && !a.SweepTest? && !a.FirstMark? && !a.SweepMarkDone?
    ensures Holds(OffloadNext(s, a), p, h)
  {
    if a.AcquireLoad? || a.AcquireNext? || a.AcquireSwap? || a.AcquireFail? || a.ClearDone? || a.Publish? {
      StartKeepsHandle(s, a, p, h);
    } else {
      LoopKeepsHandle(s, a, p, h);
    }
  }

  lemma RunStepKeepsHandle(ss: seq<State>, acts: seq<Action>, i: nat, p: nat, h: Request)
    requires IsRun(ss, acts) && i < |acts| && Holds(ss[i], p, h)
    ensures Holds(ss[i + 1], p, h)
  {
    RunIsSound(ss, acts, i);
    assert IsStep(ss, acts, i);
    match acts[i]
    case ByApp(app) => AppKeepsHandle(ss[i], app, p, h);
    case ByOffload(off) => OffloadKeepsHandle(ss[i], off, p, h);
  }

  lemma {:induction false} RunKeepsHandle(ss: seq<State>, acts: seq<Action>, i: nat, n: nat, p: nat, h: Request)
    requires IsRun(ss, acts) && i <= n < |ss| && Holds(ss[i], p, h)
    ensures Holds(ss[n], p, h)
    decreases n - i
  {
    if i < n {
      RunStepKeepsHandle(ss, acts, i, p, h);
      RunKeepsHandle(ss, acts, i + 1, n, p, h);
    }
  }

  /** The call leaves in the slot what it returned, or the null request if it has none. */
  lemma CallLeaves(s: State, request: Request, t: nat, c: nat, nul: bool)
    requires Sound(s) && OffloadEnabled(s, CallMpi(request)) && PostIs(s, s.off.post, t, c, nul)
    ensures Holds(CallMpiStep(s, request), s.off.post, Left(nul, request))
  {
    Called(s);
    CalledHolds(s, request, t, c, nul);
  }

  lemma Called(s: State)
    requires Sound(s) && s.off.Calling?
    ensures s.off.post < |s.stage| == |s.stored| && s.stage[s.off.post] == Published(s.off.slot)
    ensures s.stored[s.off.post].None?
  {
    Open(s);
    CalledUnstored(s);
  }

  lemma CalledUnstored(s: State)
    requires Sizes(s) && MarksOk(s) && s.off.Calling? && s.off.post < |s.stage| && s.stage[s.off.post].Published?
    ensures s.stored[s.off.post].None?
  {
  }

  lemma CalledHolds(s: State, request: Request, t: nat, c: nat, nul: bool)
    requires OffloadEnabled(s, CallMpi(request)) && PostIs(s, s.off.post, t, c, nul)
    requires s.off.post < |s.stage| == |s.stored| && s.stage[s.off.post] == Published(s.off.slot)
    requires s.stored[s.off.post].None?
    ensures Holds(CallMpiStep(s, request), s.off.post, Left(nul, request))
  {
  }

  /** Step b begins a post with these arguments and step k makes its call, which returns this request. */
  ghost predicate Calls(ss: seq<State>, acts: seq<Action>, b: nat, k: nat, t: nat, c: nat, nul: bool, request: Request)
  {
    && IsRun(ss, acts) && b < k < |acts| && acts[b] == ByApp(PostBegin(t, c, nul))
    && acts[k] == ByOffload(CallMpi(request)) && ss[k].off.Calling? && ss[k].off.post == |ss[b].stage|
  }

  /** In every run the slot of a post holds what its call returned, or the null request if it is a call without one,
      from the call until its operation tests complete, and the null request from then on. */
  lemma SlotHoldsHandle(ss: seq<State>, acts: seq<Action>, b: nat, k: nat, n: nat, t: nat, c: nat, nul: bool,
      request: Request)
    requires Calls(ss, acts, b, k, t, c, nul, request) && k < n < |ss|
    ensures Holds(ss[n], |ss[b].stage|, Left(nul, request))
  {
    PostedAs(ss, acts, b, k, t, c, nul);
    RunIsSound(ss, acts, k);
    assert IsStep(ss, acts, k);
    CallLeaves(ss[k], request, t, c, nul);
    RunKeepsHandle(ss, acts, k + 1, n, |ss[b].stage|, Left(nul, request));
  }

  /** The request that a test in state s is about. */
  function TestedRequest(s: State, a: Action): Request
  {
    if a.ByApp? then Null
    else if a.off.FirstTest? && s.off.Testing? && s.off.slot < |s.requests| then s.requests[s.off.slot]
    else if a.off.SweepTest? && s.off.Sweeping? && s.off.pos < |s.used| && s.used[s.off.pos] < |s.requests|
    then s.requests[s.used[s.off.pos]]
    else Null
  }

  lemma AnswerOnHandle(s: State, a: Action, p: nat, h: Request)
    requires Sound(s) && Enabled(s, a) && Holds(s, p, h) && TrueAnswer(s, a, p).Some?
    ensures TestedRequest(s, a) == h
  {
    if a.off.FirstTest? { FirstSlot(s, p); } else { SweptSlot(s, p); }
  }

  /** In every run the answer that completes an operation, the one its wait and its tests return, is given on the handle
      its own call returned; on the null request only if the call is one without a request or returned none. */
  lemma AnsweredOnOwnHandle(ss: seq<State>, acts: seq<Action>, b: nat, k: nat, n: nat, t: nat, c: nat, nul: bool,
      request: Request)
    requires Calls(ss, acts, b, k, t, c, nul, request) && k < n < |acts|
    requires TrueAnswer(ss[n], acts[n], |ss[b].stage|).Some?
    ensures TestedRequest(ss[n], acts[n]) == Left(nul, request)
  {
    SlotHoldsHandle(ss, acts, b, k, n, t, c, nul, request);
    RunIsSound(ss, acts, n);
    assert IsStep(ss, acts, n);
    AnswerOnHandle(ss[n], acts[n], |ss[b].stage|, Left(nul, request));
  }

  // ---------------------------------------------------------------- from the post to the return of its wait

  /** Every post has been begun. */
  lemma {:induction false} WasPosted(ss: seq<State>, acts: seq<Action>, n: nat, p: nat)
    returns (b: nat, t: nat, c: nat, nul: bool)
    requires IsRun(ss, acts) && n < |ss| && p < |ss[n].stage|
    ensures b < n && acts[b] == ByApp(PostBegin(t, c, nul)) && |ss[b].stage| == p
  {
    NoPosts(ss, acts);
    var begun := PostsGrow(ss, acts, n - 1);
    if p < |ss[n - 1].stage| {
      b, t, c, nul := WasPosted(ss, acts, n - 1, p);
    } else {
      var a := acts[n - 1].app;
      b, t, c, nul := n - 1, a.thread, a.cell, a.nullRequest;
    }
  }

  lemma NoPosts(ss: seq<State>, acts: seq<Action>)
    requires IsRun(ss, acts)
    ensures ss[0].stage == []
  {
    assert IsStep(ss, acts, 0);
  }

  /** Posts come one at a time, by PostBegin. */
  lemma PostsGrow(ss: seq<State>, acts: seq<Action>, i: nat) returns (begun: bool)
    requires IsRun(ss, acts) && i < |acts|
    ensures begun <==> acts[i].ByApp? && acts[i].app.PostBegin?
    ensures |ss[i + 1].stage| == |ss[i].stage| + if begun then 1 else 0
  {
    assert IsStep(ss, acts, i);
    begun := acts[i].ByApp? && acts[i].app.PostBegin?;
    match acts[i]
    case ByApp(app) => AppGrows(ss[i], app);
    case ByOffload(off) => OffloadGrows(ss[i], off);
  }

  lemma AppGrows(s: State, a: AppAction)
    requires AppEnabled(s, a)
    ensures |AppNext(s, a).stage| == |s.stage| + if a.PostBegin? then 1 else 0
  {
    if !a.PostBegin? { CallLeavesPosts(s, a); }
  }

  lemma OffloadGrows(s: State, a: OffloadAction)
    requires OffloadEnabled(s, a)
    ensures |OffloadNext(s, a).stage| == |s.stage|
  {
  }

  /** The post's call has been made. */
  ghost predicate HasBeenCalled(s: State, p: nat)
  {
    p < |s.stage| && !s.stage[p].Waiting? && !s.stage[p].Fresh? && !(s.off.Calling? && s.off.post == p)
  }

  lemma {:induction false} WasCalled(ss: seq<State>, acts: seq<Action>, n: nat, p: nat)
      returns (k: nat, request: Request)
    requires IsRun(ss, acts) && n < |ss| && HasBeenCalled(ss[n], p)
    ensures k < n && acts[k] == ByOffload(CallMpi(request)) && ss[k].off.Calling? && ss[k].off.post == p
  {
    NoPosts(ss, acts);
    if HasBeenCalled(ss[n - 1], p) {
      k, request := WasCalled(ss, acts, n - 1, p);
    } else {
      CallStep(ss, acts, n - 1, p);
      k, request := n - 1, acts[n - 1].off.request;
    }
  }

  lemma CallStep(ss: seq<State>, acts: seq<Action>, i: nat, p: nat)
    requires IsRun(ss, acts) && i < |acts| && HasBeenCalled(ss[i + 1], p) && !HasBeenCalled(ss[i], p)
    ensures acts[i].ByOffload? && acts[i].off.CallMpi? && ss[i].off.Calling? && ss[i].off.post == p
  {
    RunIsSound(ss, acts, i);
    assert IsStep(ss, acts, i);
    BecomesCalled(ss[i], acts[i], p);
  }

  lemma BecomesCalled(s: State, a: Action, p: nat)
    requires Sound(s) && Enabled(s, a) && HasBeenCalled(Next(s, a), p) && !HasBeenCalled(s, p)
    ensures a.ByOffload? && a.off.CallMpi? && s.off.Calling? && s.off.post == p
  {
    match a
    case ByApp(app) => AppCallsNothing(s, app, p);
    case ByOffload(off) => OffloadCalls(s, off, p);
  }

  lemma AppCallsNothing(s: State, a: AppAction, p: nat)
    requires Sound(s) && AppEnabled(s, a) && HasBeenCalled(AppNext(s, a), p)
    ensures HasBeenCalled(s, p)
  {
    if a.PostBegin? || a.WaitClearFlag? || a.ReleaseSwap? {
      InWait(s);
      ReleaseCallsNothing(s, a, p);
    } else {
      EngineNull.CallIsApart(s, a);
    }
  }

  lemma InWait(s: State)
    requires Sound(s)
    ensures Sizes(s) && AppsOk(s) && InHandOk(s)
  {
    Open(s);
  }

  lemma ReleaseCallsNothing(s: State, a: AppAction, p: nat)
    requires AppsOk(s) && InHandOk(s) && AppEnabled(s, a) && (a.PostBegin? || a.WaitClearFlag? || a.ReleaseSwap?)
    requires HasBeenCalled(AppNext(s, a), p)
    ensures HasBeenCalled(s, p)
  {
  }

  lemma OffloadCalls(s: State, a: OffloadAction, p: nat)
    requires Sound(s) && OffloadEnabled(s, a) && HasBeenCalled(OffloadNext(s, a), p) && !HasBeenCalled(s, p)
    ensures a.CallMpi? && s.off.Calling? && s.off.post == p
  {
    InWait(s);
    if a.SweepMarkDone? { SweptMark(s); }
    StageBeforeCall(s, a, p);
  }

  lemma StageBeforeCall(s: State, a: OffloadAction, p: nat)
    requires InHandOk(s) && OffloadEnabled(s, a) && HasBeenCalled(OffloadNext(s, a), p) && !HasBeenCalled(s, p)
    requires a.SweepMarkDone? ==> s.stage[s.owner[s.used[s.off.pos]]] == Published(s.used[s.off.pos])
    ensures a.CallMpi? && s.off.Calling? && s.off.post == p
  {
  }

  /** A status that is kept was answered at some step. */
  lemma {:induction false} WasAnswered(ss: seq<State>, acts: seq<Action>, n: nat, p: nat) returns (m: nat)
    requires IsRun(ss, acts) && n <= |acts| && StoredFor(ss[n], p).Some?
    ensures m < n && TrueAnswer(ss[m], acts[m], p) == StoredFor(ss[n], p)
  {
    NothingKept(ss, acts, p);
    RunStores(ss, acts, n - 1, p);
    if TrueAnswer(ss[n - 1], acts[n - 1], p).Some? { m := n - 1; } else { m := WasAnswered(ss, acts, n - 1, p); }
  }

  lemma NothingKept(ss: seq<State>, acts: seq<Action>, p: nat)
    requires IsRun(ss, acts)
    ensures StoredFor(ss[0], p).None?
  {
    assert IsStep(ss, acts, 0);
  }

  /** No answer precedes the call. */
  lemma AnsweredLater(ss: seq<State>, acts: seq<Action>, k: nat, m: nat, p: nat)
    requires IsRun(ss, acts) && k < |acts| && m < |acts| && acts[k].ByOffload? && acts[k].off.CallMpi?
    requires ss[k].off.Calling? && ss[k].off.post == p && TrueAnswer(ss[m], acts[m], p).Some?
    ensures k < m
  {
    RunIsSound(ss, acts, k);
    Called(ss[k]);
    if m < k {
      RunStores(ss, acts, m, p);
      assert EngineDrain.AllStored(ss[m + 1], {p});
      EngineDrain.StoredForGood(ss, acts, {p}, m + 1, k);
    }
  }

  lemma {:induction false} PostsOnlyGrow(ss: seq<State>, acts: seq<Action>, i: nat, j: nat)
    requires IsRun(ss, acts) && i <= j < |ss|
    ensures |ss[i].stage| <= |ss[j].stage|
    decreases j - i
  {
    if i < j {
      var begun := PostsGrow(ss, acts, i);
      PostsOnlyGrow(ss, acts, i + 1, j);
    }
  }

  /** End to end: behind every wait that has returned stand the step that began its post, the later step that made the
      call with the caller's kind of request, and the still later step at which the library answered true on what that
      call left in the slot; the status of that answer is what the wait copied out, if it was given one to fill. */
  lemma WaitReturnsOwnOperation(ss: seq<State>, acts: seq<Action>, n: nat, p: nat)
    returns (b: nat, k: nat, m: nat, t: nat, c: nat, nul: bool, request: Request)
    requires IsRun(ss, acts) && n <= |acts| && p < |ss[n].stage| && ss[n].stage[p].Released?
    ensures Calls(ss, acts, b, k, t, c, nul, request) && |ss[b].stage| == p && k < m < n
    ensures TestedRequest(ss[m], acts[m]) == Left(nul, request) && TrueAnswer(ss[m], acts[m], p).Some?
    ensures p < |ss[n].result| == |ss[n].wants|
    ensures ss[n].result[p] == if ss[n].wants[p] then TrueAnswer(ss[m], acts[m], p) else None
  {
    b, t, c, nul := WasPosted(ss, acts, n, p);
    RunIsSound(ss, acts, n);
    HasResult(ss[n], p);
    k, request := WasCalled(ss, acts, n, p);
    m := WasAnswered(ss, acts, n, p);
    AnsweredLater(ss, acts, k, m, p);
    RunIsSound(ss, acts, k);
    Called(ss[k]);
    if k <= b { PostsOnlyGrow(ss, acts, k, b); }
    AnsweredOnOwnHandle(ss, acts, b, k, m, t, c, nul, request);
  }

  lemma HasResult(s: State, p: nat)
    requires Sound(s) && p < |s.stage| && s.stage[p].Released?
    ensures HasBeenCalled(s, p) && StoredFor(s, p).Some? && p < |s.result| == |s.wants|
    ensures s.result[p] == if s.wants[p] then StoredFor(s, p) else None
  {
    Open(s);
  }
}
