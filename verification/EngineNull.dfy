/** Commands for MPI calls that have no request: they complete at their first test, with the empty status. */
module EngineNull {
  import EngineOffload
  import opened Engine
  import opened EngineInv
  import opened EngineRuns
  import EngineDrain

  /** Such a command leaves its first test only as finished, and is never left to the sweep. */
  ghost predicate NullOk(s: State)
  {
    && |s.nullRequest| == |s.stage| == |s.stored| == |s.tests|
    && (forall p :: 0 <= p < |s.stage| && s.nullRequest[p] && s.stage[p].Published? ==>
          (s.off.Calling? || s.off.Testing? || s.off.Marking?) && s.off.post == p)
    && (s.off.Testing? && s.off.post < |s.nullRequest| && s.nullRequest[s.off.post] ==>
          s.off.slot < |s.requests| && s.requests[s.off.slot].Null?)
    && (forall p :: 0 <= p < |s.stage| && s.nullRequest[p] ==>
          if s.stored[p].Some? then s.stored[p] == Some(EMPTY_STATUS) && s.tests[p] == 1 else s.tests[p] == 0)
  }

  lemma PostKeepsNull(s: State, t: nat, c: nat, nul: bool)
    requires InHandOk(s) && NullOk(s) && AppEnabled(s, PostBegin(t, c, nul))
    ensures NullOk(PostBeginStep(s, t, c, nul))
  {
  }

  lemma ReleaseKeepsNull(s: State, a: AppAction)
    requires NullOk(s) && AppEnabled(s, a) && (a.WaitClearFlag? || a.ReleaseSwap?)
    ensures NullOk(AppNext(s, a))
  {
  }

  /** Steps that leave alone everything the invariant speaks of. */
  ghost predicate Apart(s: State, s': State)
  {
    && s'.nullRequest == s.nullRequest && s'.stage == s.stage && s'.stored == s.stored && s'.tests == s.tests
    && s'.requests == s.requests && s'.off == s.off
  }

  lemma ApartKeepsNull(s: State, s': State)
    requires NullOk(s) && Apart(s, s')
    ensures NullOk(s')
  {
  }

  lemma WaitIsApart(s: State, a: AppAction)
    requires AppEnabled(s, a) && (a.WaitAdd? || a.WaitNext? || a.WaitLoadCell? || a.WaitLoadFlag? || a.WaitCopyStatus?)
    ensures Apart(s, AppNext(s, a))
  {
  }

  lemma OtherIsApart(s: State, a: AppAction)
    requires AppEnabled(s, a) && !a.PostBegin? && !a.WaitClearFlag? && !a.ReleaseSwap?
    requires !a.WaitAdd? && !a.WaitNext? && !a.WaitLoadCell? && !a.WaitLoadFlag? && !a.WaitCopyStatus?
    ensures Apart(s, AppNext(s, a))
  {
  }

  lemma CallIsApart(s: State, a: AppAction)
    requires AppEnabled(s, a) && !a.PostBegin? && !a.WaitClearFlag? && !a.ReleaseSwap?
    ensures Apart(s, AppNext(s, a))
  {
    if a.WaitAdd? || a.WaitNext? || a.WaitLoadCell? || a.WaitLoadFlag? || a.WaitCopyStatus? {
      WaitIsApart(s, a);
    } else {
      OtherIsApart(s, a);
    }
  }

  lemma AppKeepsNull(s: State, a: AppAction)
    requires InHandOk(s) && NullOk(s) && AppEnabled(s, a)
    ensures NullOk(AppNext(s, a))
  {
    if a.PostBegin? {
      PostKeepsNull(s, a.thread, a.cell, a.nullRequest);
    } else if a.WaitClearFlag? || a.ReleaseSwap? {
      ReleaseKeepsNull(s, a);
    } else {
      CallIsApart(s, a);
      ApartKeepsNull(s, AppNext(s, a));
    }
  }

  lemma FirstTestKeepsNull(s: State, flag: bool, status: Status)
    requires Sound(s) && NullOk(s) && OffloadEnabled(s, FirstTest(flag, status))
    ensures NullOk(FirstTestStep(s, flag, status))
  {
    Open(s);
    EngineOffload.FirstOp(s);
    EngineDrain.NotYetStored(s, s.off.post);
    TestOf(s, s.off.slot, s.off.post, flag, status);
  }

  /** A test of post p's operation, which answers as a null request does if p has none. */
  lemma TestOf(s: State, slot: nat, p: nat, flag: bool, status: Status)
    requires NullOk(s) && slot < |s.requests| && slot < |s.statuses| && p < |s.stored|
    requires s.nullRequest[p] ==> s.stored[p].None? && flag && status == EMPTY_STATUS
    ensures var s' := TestedState(s, slot, p, flag, status);
            forall q :: 0 <= q < |s'.stage| && s'.nullRequest[q] ==>
              if s'.stored[q].Some? then s'.stored[q] == Some(EMPTY_STATUS) && s'.tests[q] == 1 else s'.tests[q] == 0
  {
  }

  lemma SweepTestKeepsNull(s: State, flag: bool, status: Status)
    requires Sound(s) && NullOk(s) && OffloadEnabled(s, SweepTest(flag, status))
    ensures NullOk(SweepTestStep(s, flag, status))
  {
    Open(s);
    if s.off.pos < |s.used| {
      var x := s.used[s.off.pos];
      EngineOffload.SweptOp(s);
      EngineOffload.SweptPublished(s);
      TestOf(s, x, s.owner[x], flag, status);
    }
  }

  lemma MarkKeepsNull(s: State, a: OffloadAction)
    requires Sound(s) && NullOk(s) && OffloadEnabled(s, a) && (a.FirstMark? || a.SweepMarkDone?)
    ensures NullOk(OffloadNext(s, a))
  {
    Open(s);
    if a.SweepMarkDone? { EngineOffload.MarkedPublished(s); }
    MarkedKeepsNull(s, a);
  }

  lemma MarkedKeepsNull(s: State, a: OffloadAction)
    requires NullOk(s) && OffloadEnabled(s, a) && (a.FirstMark? || a.SweepMarkDone?)
    ensures NullOk(OffloadNext(s, a))
  {
  }

  /** Only the program counter moves, to a point before the call or after the erase. */
  lemma LoopKeepsNull(s: State, a: OffloadAction)
    requires NullOk(s) && OffloadEnabled(s, a)
    requires a.Loop? || a.DequeueLoadTail? || a.DequeueLoadHead? || a.DequeueCas? || a.DequeueExchange?
            || a.SweepEraseSlot?
    ensures NullOk(OffloadNext(s, a))
  {
  }

  lemma AcquireKeepsNull(s: State, a: OffloadAction)
    requires InHandOk(s) && NullOk(s) && OffloadEnabled(s, a)
    requires a.AcquireLoad? || a.AcquireNext? || a.AcquireSwap? || a.AcquireFail?
    ensures NullOk(OffloadNext(s, a))
  {
  }

  lemma StartKeepsNull(s: State, a: OffloadAction)
    requires InHandOk(s) && NullOk(s) && OffloadEnabled(s, a) && (a.ClearDone? || a.Publish? || a.CallMpi?)
    ensures NullOk(OffloadNext(s, a))
  {
  }

  lemma OtherKeepsNull(s: State, a: OffloadAction)
    requires InHandOk(s) && NullOk(s) && OffloadEnabled(s, a)
    requires !a.FirstTest? && !a.SweepTest? && !a.FirstMark? && !a.SweepMarkDone?
    ensures NullOk(OffloadNext(s, a))
  {
    if a.AcquireLoad? || a.AcquireNext? || a.AcquireSwap? || a.AcquireFail? {
      AcquireKeepsNull(s, a);
    } else if a.ClearDone? || a.Publish? || a.CallMpi? {
      StartKeepsNull(s, a);
    } else {
      LoopKeepsNull(s, a);
    }
  }

  lemma TestKeepsNull(s: State, a: OffloadAction)
    requires Sound(s) && NullOk(s) && OffloadEnabled(s, a)
    requires a.FirstTest? || a.SweepTest? || a.FirstMark? || a.SweepMarkDone?
    ensures NullOk(OffloadNext(s, a))
  {
    if a.FirstTest? {
      FirstTestKeepsNull(s, a.flag, a.status);
    } else if a.SweepTest? {
      SweepTestKeepsNull(s, a.flag, a.status);
    } else {
      MarkKeepsNull(s, a);
    }
  }

  lemma InHand(s: State)
    requires Sound(s)
    ensures InHandOk(s)
  {
    Open(s);
  }

  lemma NextKeepsNull(s: State, a: Action)
    requires Sound(s) && NullOk(s) && Enabled(s, a)
    ensures NullOk(Next(s, a))
  {
    InHand(s);
    match a
    case ByApp(app) => AppKeepsNull(s, app);
    case ByOffload(off) =>
      if off.FirstTest? || off.SweepTest? || off.FirstMark? || off.SweepMarkDone? {
        TestKeepsNull(s, off);
      } else {
        OtherKeepsNull(s, off);
      }
  }

  lemma {:induction false} RunKeepsNull(ss: seq<State>, acts: seq<Action>, i: nat)
    requires IsRun(ss, acts) && i < |ss|
    ensures NullOk(ss[i])
  {
    if i == 0 {
      InitialNull(ss, acts);
    } else {
      RunKeepsNull(ss, acts, i - 1);
      RunStepKeepsNull(ss, acts, i - 1);
    }
  }

  lemma InitialNull(ss: seq<State>, acts: seq<Action>)
    requires IsRun(ss, acts)
    ensures NullOk(ss[0])
  {
    assert IsStep(ss, acts, 0);
  }

  lemma RunStepKeepsNull(ss: seq<State>, acts: seq<Action>, i: nat)
    requires IsRun(ss, acts) && i < |acts| && NullOk(ss[i])
    ensures NullOk(ss[i + 1])
  {
    RunIsSound(ss, acts, i);
    assert IsStep(ss, acts, i);
    NextKeepsNull(ss[i], acts[i]);
  }

  lemma NullResult(s: State, p: nat)
    requires Sizes(s) && StoredOk(s) && NullOk(s) && p < |s.stage| && s.nullRequest[p]
    ensures s.tests[p] <= 1
    ensures Finished(s.stage[p]) ==> s.tests[p] == 1 && s.stored[p] == Some(EMPTY_STATUS)
    ensures s.stage[p].Released? && s.wants[p] ==> s.result[p] == Some(EMPTY_STATUS)
  {
  }

  /** In every run the operation of a command without request is tested at most once, is finished by that test, and
      its wait returns the empty status. */
  lemma NullRequestCompletes(ss: seq<State>, acts: seq<Action>, n: nat, p: nat)
    requires IsRun(ss, acts) && n < |ss| && p < |ss[n].stage| && p < |ss[n].nullRequest| && ss[n].nullRequest[p]
    ensures |ss[n].tests| == |ss[n].result| == |ss[n].wants| == |ss[n].stage|
    ensures ss[n].tests[p] <= 1 && (Finished(ss[n].stage[p]) ==> ss[n].tests[p] == 1)
    ensures ss[n].stage[p].Released? && ss[n].wants[p] ==> ss[n].result[p] == Some(EMPTY_STATUS)
  {
    RunKeepsInv(ss, acts, n);
    RunKeepsNull(ss, acts, n);
    NullResult(ss[n], p);
  }
}
