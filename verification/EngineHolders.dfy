/** The model's bookkeeping of who operates on a request never keeps a caller out: an outstanding request that no call
    works on, and no array still lists, may be waited for or tested. */
module EngineHolders {
  import opened Engine
  import opened EngineInv
  import opened EngineRuns
  import EngineWaitall

  ghost predicate HeldInv(apps: seq<AppPc>, batches: seq<Batch>, holder: seq<Holder>)
  {
    && (forall t :: 0 <= t < |batches| ==> batches[t].next <= |batches[t].items|)
    && (forall p :: 0 <= p < |holder| && holder[p].InCall? ==>
          holder[p].thread < |apps| && Target(apps[holder[p].thread]) == Some(p))
    && (forall p :: 0 <= p < |holder| && holder[p].Listed? ==>
          var t, i := holder[p].thread, holder[p].pos;
          t < |batches| && batches[t].next <= i < |batches[t].items| && batches[t].items[i].post == p)
  }

  ghost predicate HeldOk(s: State) { HeldInv(s.apps, s.batches, s.holder) }

  lemma PostKeepsHeld(s: State, a: AppAction)
    requires HeldOk(s) && AppEnabled(s, a)
    requires a.PostBegin? || a.PostTicket? || a.PostStore? || a.Overwrite? || a.Stop?
    ensures HeldOk(AppNext(s, a))
  {
  }

  lemma AddKeepsHeld(s: State, t: nat, p: nat, ignore: bool)
    requires HeldOk(s) && AppEnabled(s, WaitAdd(t, p, ignore))
    ensures HeldOk(WaitAddStep(s, t, p, ignore))
  {
  }

  lemma ComesToNext(s: State, t: nat)
    requires HeldOk(s) && AppEnabled(s, WaitNext(t))
    ensures HeldOk(WaitNextStep(s, t))
  {
  }

  lemma ListKeepsHeld(s: State, a: AppAction)
    requires HeldOk(s) && AppEnabled(s, a) && (a.WaitAdd? || a.WaitNext?)
    ensures HeldOk(AppNext(s, a))
  {
    match a
    case WaitAdd(t, p, ignore) => AddKeepsHeld(s, t, p, ignore);
    case WaitNext(t) => ComesToNext(s, t);
  }

  lemma WaitKeepsHeld(s: State, a: AppAction)
    requires HeldOk(s) && AppEnabled(s, a)
    requires a.WaitLoadCell? || a.WaitLoadFlag? || a.WaitCopyStatus? || a.ReleaseLoad? || a.ReleaseLink?
    ensures HeldOk(AppNext(s, a))
  {
    MovesOn(s.apps, s.batches, s.holder, a.thread, AppNext(s, a).apps[a.thread]);
    WaitOnlyMoves(s, a);
  }

  lemma WaitOnlyMoves(s: State, a: AppAction)
    requires AppEnabled(s, a)
    requires a.WaitLoadCell? || a.WaitLoadFlag? || a.WaitCopyStatus? || a.ReleaseLoad? || a.ReleaseLink?
    ensures var s' := AppNext(s, a);
            && |s'.apps| == |s.apps| && s'.apps == s.apps[a.thread := s'.apps[a.thread]]
            && Target(s'.apps[a.thread]) == Target(s.apps[a.thread])
            && s'.batches == s.batches && s'.holder == s.holder
  {
  }

  lemma ReleaseKeepsHeld(s: State, a: AppAction)
    requires HeldOk(s) && AppEnabled(s, a) && (a.WaitClearFlag? || a.ReleaseSwap?)
    ensures HeldOk(AppNext(s, a))
  {
  }

  /** A thread that moves on inside its call, or leaves it together with its request, or enters one. */
  lemma MovesOn(apps: seq<AppPc>, batches: seq<Batch>, holder: seq<Holder>, t: nat, a: AppPc)
    requires HeldInv(apps, batches, holder) && t < |apps| && Target(a) == Target(apps[t])
    ensures HeldInv(apps[t := a], batches, holder)
  {
  }

  lemma Leaves(apps: seq<AppPc>, batches: seq<Batch>, holder: seq<Holder>, t: nat, p: nat)
    requires HeldInv(apps, batches, holder) && t < |apps| && p < |holder| && Target(apps[t]) == Some(p)
    ensures HeldInv(apps[t := Idle], batches, holder[p := Nobody])
  {
  }

  lemma Enters(apps: seq<AppPc>, batches: seq<Batch>, holder: seq<Holder>, t: nat, p: nat, a: AppPc)
    requires HeldInv(apps, batches, holder) && t < |apps| && p < |holder| && apps[t].Idle? && Target(a) == Some(p)
    ensures HeldInv(apps[t := a], batches, holder[p := InCall(t)])
  {
  }

  lemma TestKeepsHeld(s: State, a: AppAction)
    requires HeldOk(s) && AppEnabled(s, a)
    requires a.TestBegin? || a.TestLoadCell? || a.TestLoadFlag? || a.TestCopyStatus?
    ensures HeldOk(AppNext(s, a))
  {
    var t, next := a.thread, AppNext(s, a).apps[a.thread];
    if a.TestBegin? {
      Enters(s.apps, s.batches, s.holder, t, a.post, next);
    } else if next.Idle? {
      Leaves(s.apps, s.batches, s.holder, t, s.apps[t].post);
    } else {
      MovesOn(s.apps, s.batches, s.holder, t, next);
    }
  }

  lemma AppKeepsHeld(s: State, a: AppAction)
    requires HeldOk(s) && AppEnabled(s, a)
    ensures HeldOk(AppNext(s, a))
  {
    if a.PostBegin? || a.PostTicket? || a.PostStore? || a.Overwrite? || a.Stop? {
      PostKeepsHeld(s, a);
    } else if a.WaitAdd? || a.WaitNext? {
      ListKeepsHeld(s, a);
    } else if a.WaitClearFlag? || a.ReleaseSwap? {
      ReleaseKeepsHeld(s, a);
    } else if a.TestBegin? || a.TestLoadCell? || a.TestLoadFlag? || a.TestCopyStatus? {
      TestKeepsHeld(s, a);
    } else {
      WaitKeepsHeld(s, a);
    }
  }

  lemma OffloadLeavesHolders(s: State, a: OffloadAction)
    requires OffloadEnabled(s, a)
    ensures OffloadNext(s, a).holder == s.holder
  {
  }

  lemma NextKeepsHeld(s: State, a: Action)
    requires HeldOk(s) && Enabled(s, a)
    ensures HeldOk(Next(s, a))
  {
    match a
    case ByApp(app) => AppKeepsHeld(s, app);
    case ByOffload(off) =>
      OffloadLeavesHolders(s, off);
      EngineWaitall.OffloadLeavesCalls(s, off);
  }

  lemma {:induction false} RunKeepsHeld(ss: seq<State>, acts: seq<Action>, i: nat)
    requires IsRun(ss, acts) && i < |ss|
    ensures HeldOk(ss[i])
  {
    if i == 0 {
      NobodyHolds(ss, acts);
    } else {
      RunKeepsHeld(ss, acts, i - 1);
      RunStepKeepsHeld(ss, acts, i);
    }
  }

  lemma NobodyHolds(ss: seq<State>, acts: seq<Action>)
    requires IsRun(ss, acts)
    ensures HeldOk(ss[0])
  {
    assert IsStep(ss, acts, 0);
  }

  lemma RunStepKeepsHeld(ss: seq<State>, acts: seq<Action>, i: nat)
    requires IsRun(ss, acts) && 0 < i < |ss| && HeldOk(ss[i - 1])
    ensures HeldOk(ss[i])
  {
    assert IsStep(ss, acts, i - 1);
    NextKeepsHeld(ss[i - 1], acts[i - 1]);
  }

  /** No call works on request p and no array still lists it. */
  ghost predicate Unattended(s: State, p: nat)
  {
    && (forall t :: 0 <= t < |s.apps| ==> Target(s.apps[t]) != Some(p))
    && (forall t, i :: 0 <= t < |s.batches| && s.batches[t].next <= i < |s.batches[t].items| ==>
          s.batches[t].items[i].post != p)
  }

  lemma NobodyHas(s: State, p: nat)
    requires HeldOk(s) && Unattended(s, p) && p < |s.holder|
    ensures s.holder[p].Nobody?
  {
  }

  lemma Sizes(s: State)
    requires Sound(s)
    ensures |s.holder| == |s.wants| == |s.stage| && |s.apps| == |s.batches|
  {
    Open(s);
  }

  /** In every run an idle thread may wait for any outstanding request that nobody attends to, and a thread that rests
      may test it. */
  lemma MayBeUsed(ss: seq<State>, acts: seq<Action>, n: nat, p: nat, t: nat, ignore: bool)
    requires IsRun(ss, acts) && n < |ss| && p < |ss[n].stage| && !ss[n].stage[p].Released? && Unattended(ss[n], p)
    requires t < |ss[n].apps| && ss[n].apps[t].Idle?
    ensures AppEnabled(ss[n], WaitAdd(t, p, ignore))
    ensures Resting(ss[n], t) ==> AppEnabled(ss[n], TestBegin(t, p, ignore))
  {
    RunKeepsHeld(ss, acts, n);
    RunIsSound(ss, acts, n);
    Sizes(ss[n]);
    NobodyHas(ss[n], p);
  }
}
