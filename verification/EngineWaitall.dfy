/** MPI_Waitall in every run: whatever the other threads do meanwhile, a thread that has come back from it has the
    status of every request of its array. */
module EngineWaitall {
  import opened Engine
  import opened EngineInv
  import opened EngineRuns
  import EngineTheorems

  /** The thread is inside a wait, not a test, on request p. */
  predicate Waits(a: AppPc, p: nat)
  {
    Target(a) == Some(p) && !a.TestCell? && !a.TestFlag? && !a.TestCopy?
  }

  /** The elements a thread has come to are released, except the one it is waiting for, and were waited for with or
      without a status as the array says. */
  ghost predicate BehindInv(apps: seq<AppPc>, batches: seq<Batch>, stage: seq<Stage>, wants: seq<bool>)
  {
    && |batches| == |apps| && |wants| == |stage|
    && forall t, i :: 0 <= t < |batches| && 0 <= i < batches[t].next && i < |batches[t].items| ==>
         var item := batches[t].items[i];
         && item.post < |stage| && item.ignore == !wants[item.post]
         && (stage[item.post].Released? || (i + 1 == batches[t].next && Waits(apps[t], item.post)))
  }

  ghost predicate BehindOk(s: State) { BehindInv(s.apps, s.batches, s.stage, s.wants) }

  lemma PostKeepsBehind(s: State, a: AppAction)
    requires Sizes(s) && BehindOk(s) && AppEnabled(s, a)
    requires a.PostBegin? || a.PostTicket? || a.PostStore? || a.Overwrite? || a.Stop?
    ensures BehindOk(AppNext(s, a))
  {
  }

  /** A request that a thread adds to its array is neither released nor waited for. */
  lemma AddKeepsBehind(s: State, t: nat, p: nat, ignore: bool)
    requires Sizes(s) && AppsOk(s) && BatchesOk(s) && BehindOk(s) && AppEnabled(s, WaitAdd(t, p, ignore))
    ensures BehindOk(WaitAddStep(s, t, p, ignore))
  {
  }

  lemma ComesToNext(s: State, t: nat)
    requires Sizes(s) && BatchesOk(s) && BehindOk(s) && AppEnabled(s, WaitNext(t))
    ensures BehindOk(WaitNextStep(s, t))
  {
  }

  lemma ListKeepsBehind(s: State, a: AppAction)
    requires Sizes(s) && AppsOk(s) && BatchesOk(s) && BehindOk(s) && AppEnabled(s, a) && (a.WaitAdd? || a.WaitNext?)
    ensures BehindOk(AppNext(s, a))
  {
    match a
    case WaitAdd(t, p, ignore) => AddKeepsBehind(s, t, p, ignore);
    case WaitNext(t) => ComesToNext(s, t);
  }

  lemma WaitKeepsBehind(s: State, a: AppAction)
    requires Sizes(s) && BehindOk(s) && AppEnabled(s, a)
    requires a.WaitLoadCell? || a.WaitLoadFlag? || a.WaitCopyStatus? || a.ReleaseLoad? || a.ReleaseLink?
    ensures BehindOk(AppNext(s, a))
  {
  }

  lemma ReleaseKeepsBehind(s: State, a: AppAction)
    requires Sizes(s) && AppsOk(s) && BehindOk(s) && AppEnabled(s, a) && (a.WaitClearFlag? || a.ReleaseSwap?)
    ensures BehindOk(AppNext(s, a))
  {
  }

  /** A thread that waits for nothing has all its elements behind it, wherever it goes. */
  lemma FreeToMove(apps: seq<AppPc>, batches: seq<Batch>, stage: seq<Stage>, wants: seq<bool>, t: nat, a: AppPc)
    requires BehindInv(apps, batches, stage, wants) && t < |apps|
    requires Target(apps[t]).None? || apps[t].TestCell? || apps[t].TestFlag? || apps[t].TestCopy?
    ensures BehindInv(apps[t := a], batches, stage, wants)
  {
  }

  lemma TestKeepsBehind(s: State, a: AppAction)
    requires Sizes(s) && BehindOk(s) && AppEnabled(s, a)
    requires a.TestBegin? || a.TestLoadCell? || a.TestLoadFlag? || a.TestCopyStatus?
    ensures BehindOk(AppNext(s, a))
  {
    FreeToMove(s.apps, s.batches, s.stage, s.wants, a.thread, AppNext(s, a).apps[a.thread]);
    TestOnlyMoves(s, a);
  }

  lemma TestOnlyMoves(s: State, a: AppAction)
    requires AppEnabled(s, a)
    requires a.TestBegin? || a.TestLoadCell? || a.TestLoadFlag? || a.TestCopyStatus?
    ensures var s' := AppNext(s, a);
            && |s'.apps| == |s.apps| && s'.apps == s.apps[a.thread := s'.apps[a.thread]]
            && s'.batches == s.batches && s'.stage == s.stage && s'.wants == s.wants
  {
  }

  lemma AppKeepsBehind(s: State, a: AppAction)
    requires Sizes(s) && AppsOk(s) && BatchesOk(s) && BehindOk(s) && AppEnabled(s, a)
    ensures BehindOk(AppNext(s, a))
  {
    if a.PostBegin? || a.PostTicket? || a.PostStore? || a.Overwrite? || a.Stop? {
      PostKeepsBehind(s, a);
    } else if a.WaitAdd? || a.WaitNext? {
      ListKeepsBehind(s, a);
    } else if a.WaitClearFlag? || a.ReleaseSwap? {
      ReleaseKeepsBehind(s, a);
    } else if a.TestBegin? || a.TestLoadCell? || a.TestLoadFlag? || a.TestCopyStatus? {
      TestKeepsBehind(s, a);
    } else {
      WaitKeepsBehind(s, a);
    }
  }

  /** The offload thread touches neither the arrays nor their threads, and releases stay. */
  lemma OffloadLeavesCalls(s: State, a: OffloadAction)
    requires OffloadEnabled(s, a)
    ensures var s' := OffloadNext(s, a);
            s'.apps == s.apps && s'.batches == s.batches && s'.wants == s.wants && |s'.stage| == |s.stage|
  {
  }

  lemma OffloadKeepsBehind(s: State, a: OffloadAction)
    requires Sizes(s) && InHandOk(s) && UsedOk(s) && BehindOk(s) && OffloadEnabled(s, a)
    ensures BehindOk(OffloadNext(s, a))
  {
    OffloadLeavesCalls(s, a);
    forall p: nat | p < |s.stage| ensures s.stage[p].Released? ==> OffloadNext(s, a).stage[p].Released? {
      OffloadForward(s, a, p);
    }
  }

  lemma NextKeepsBehind(s: State, a: Action)
    requires Sound(s) && BehindOk(s) && Enabled(s, a)
    ensures BehindOk(Next(s, a))
  {
    Open(s);
    match a
    case ByApp(app) => AppKeepsBehind(s, app);
    case ByOffload(off) => OffloadKeepsBehind(s, off);
  }

  lemma {:induction false} RunKeepsBehind(ss: seq<State>, acts: seq<Action>, i: nat)
    requires IsRun(ss, acts) && i < |ss|
    ensures BehindOk(ss[i])
  {
    if i == 0 {
      StartsBehind(ss, acts);
    } else {
      RunKeepsBehind(ss, acts, i - 1);
      RunStepKeepsBehind(ss, acts, i);
    }
  }

  lemma StartsBehind(ss: seq<State>, acts: seq<Action>)
    requires IsRun(ss, acts)
    ensures BehindOk(ss[0])
  {
    assert IsStep(ss, acts, 0);
  }

  lemma RunStepKeepsBehind(ss: seq<State>, acts: seq<Action>, i: nat)
    requires IsRun(ss, acts) && 0 < i < |ss| && BehindOk(ss[i - 1])
    ensures BehindOk(ss[i])
  {
    RunIsSound(ss, acts, i - 1);
    assert IsStep(ss, acts, i - 1);
    NextKeepsBehind(ss[i - 1], acts[i - 1]);
  }

  lemma BehindAt(s: State, t: nat, i: nat)
    requires BehindOk(s) && t < |s.batches| && i < s.batches[t].next && i < |s.batches[t].items|
    requires i + 1 < s.batches[t].next || Resting(s, t)
    ensures var item := s.batches[t].items[i];
            item.post < |s.stage| == |s.wants| && item.ignore == !s.wants[item.post] && s.stage[item.post].Released?
  {
  }

  /** A Waitall goes through its array in order: in every run the elements before the current one are released. */
  lemma WaitsInOrder(ss: seq<State>, acts: seq<Action>, n: nat, t: nat, i: nat)
    requires IsRun(ss, acts) && n < |ss| && t < |ss[n].batches|
    requires i + 1 < ss[n].batches[t].next && i < |ss[n].batches[t].items|
    ensures var p := ss[n].batches[t].items[i].post; p < |ss[n].stage| && ss[n].stage[p].Released?
  {
    RunKeepsBehind(ss, acts, n);
    BehindAt(ss[n], t, i);
  }

  /** In every run, when the thread is back from its Waitalls, every request of its arrays is released and its status
      is the one answer the library gave for the command posted with it, or none where the array asked for none. */
  lemma WaitallReturns(ss: seq<State>, acts: seq<Action>, n: nat, t: nat, i: nat)
    requires IsRun(ss, acts) && n < |ss| && Resting(ss[n], t) && i < |ss[n].batches[t].items|
    ensures var item := ss[n].batches[t].items[i];
            && item.post < |ss[n].stage| == |ss[n].result| && ss[n].stage[item.post].Released?
            && var answers := EngineTheorems.TrueAnswers(ss, acts, n, item.post);
               |answers| == 1 && ss[n].result[item.post] == if item.ignore then None else Some(answers[0])
  {
    RunKeepsBehind(ss, acts, n);
    BehindAt(ss[n], t, i);
    EngineTheorems.WaitReturnsOwnStatus(ss, acts, n, ss[n].batches[t].items[i].post);
  }

  // ---------------------------------------------------------------- from the caller's arguments

  ghost predicate HasItem(s: State, t: nat, i: nat, item: Item)
  {
    t < |s.batches| && i < |s.batches[t].items| && s.batches[t].items[i] == item
  }

  lemma ListKeepsItem(s: State, a: AppAction, t: nat, i: nat, item: Item)
    requires AppEnabled(s, a) && HasItem(s, t, i, item) && (a.WaitAdd? || a.WaitNext?)
    ensures HasItem(AppNext(s, a), t, i, item)
  {
  }

  lemma LeavesArrays(s: State, a: AppAction)
    requires AppEnabled(s, a) && !a.WaitAdd? && !a.WaitNext?
    ensures AppNext(s, a).batches == s.batches
  {
  }

  lemma AppKeepsItem(s: State, a: AppAction, t: nat, i: nat, item: Item)
    requires AppEnabled(s, a) && HasItem(s, t, i, item)
    ensures HasItem(AppNext(s, a), t, i, item)
  {
    if a.WaitAdd? || a.WaitNext? { ListKeepsItem(s, a, t, i, item); } else { LeavesArrays(s, a); }
  }

  lemma NextKeepsItem(s: State, a: Action, t: nat, i: nat, item: Item)
    requires Enabled(s, a) && HasItem(s, t, i, item)
    ensures HasItem(Next(s, a), t, i, item)
  {
    match a
    case ByApp(app) => AppKeepsItem(s, app, t, i, item);
    case ByOffload(off) => OffloadLeavesCalls(s, off);
  }

  lemma {:induction false} RunKeepsItem(ss: seq<State>, acts: seq<Action>, k: nat, n: nat, t: nat, i: nat, item: Item)
    requires IsRun(ss, acts) && k <= n < |ss| && HasItem(ss[k], t, i, item)
    ensures HasItem(ss[n], t, i, item)
    decreases n - k
  {
    if k < n {
      RunStepKeepsItem(ss, acts, k, t, i, item);
      RunKeepsItem(ss, acts, k + 1, n, t, i, item);
    }
  }

  lemma RunStepKeepsItem(ss: seq<State>, acts: seq<Action>, k: nat, t: nat, i: nat, item: Item)
    requires IsRun(ss, acts) && k < |acts| && HasItem(ss[k], t, i, item)
    ensures HasItem(ss[k + 1], t, i, item)
  {
    assert IsStep(ss, acts, k);
    NextKeepsItem(ss[k], acts[k], t, i, item);
  }

  /** Where the request that step k adds to thread t's array stands. */
  function PlaceOf(ss: seq<State>, k: nat, t: nat): nat
  {
    if k < |ss| && t < |ss[k].batches| then |ss[k].batches[t].items| else 0
  }

  lemma AddsItem(ss: seq<State>, acts: seq<Action>, k: nat, t: nat, p: nat, ignore: bool)
    requires IsRun(ss, acts) && k < |acts| && acts[k] == ByApp(WaitAdd(t, p, ignore))
    ensures HasItem(ss[k + 1], t, PlaceOf(ss, k, t), Item(p, ignore))
  {
    assert IsStep(ss, acts, k);
  }

  lemma WantsAsListed(s: State, t: nat, i: nat, item: Item)
    requires Sound(s) && BehindOk(s) && HasItem(s, t, i, item)
    ensures item.post < |s.wants| && s.wants[item.post] == !item.ignore
  {
    Open(s);
    ItemWants(s, t, i);
  }

  lemma ItemWants(s: State, t: nat, i: nat)
    requires BatchesOk(s) && BehindOk(s) && t < |s.batches| && i < |s.batches[t].items|
    ensures var item := s.batches[t].items[i]; item.post < |s.wants| && s.wants[item.post] == !item.ignore
  {
    if i >= s.batches[t].next {
      assert s.batches[t].items[i].ignore == !s.wants[s.batches[t].items[i].post];
    }
  }

  /** A request added to a thread's array stands at its place for good, and is waited for with a status exactly if the
      caller gave one. */
  lemma AddedAs(ss: seq<State>, acts: seq<Action>, k: nat, n: nat, t: nat, p: nat, ignore: bool)
    requires IsRun(ss, acts) && k < n < |ss| && acts[k] == ByApp(WaitAdd(t, p, ignore))
    ensures HasItem(ss[n], t, PlaceOf(ss, k, t), Item(p, ignore))
    ensures p < |ss[n].wants| && ss[n].wants[p] == !ignore
  {
    AddsItem(ss, acts, k, t, p, ignore);
    RunKeepsItem(ss, acts, k + 1, n, t, PlaceOf(ss, k, t), Item(p, ignore));
    RunIsSound(ss, acts, n);
    RunKeepsBehind(ss, acts, n);
    WantsAsListed(ss[n], t, PlaceOf(ss, k, t), Item(p, ignore));
  }

  /** In every run: when the thread is back, each request it waited for is released, and its status is the one
      answer the library gave for the command posted with it if the caller gave a status to fill, none if the caller
      ignored it. */
  lemma WaitallFills(ss: seq<State>, acts: seq<Action>, k: nat, n: nat, t: nat, p: nat, ignore: bool)
    requires IsRun(ss, acts) && k < n < |ss| && acts[k] == ByApp(WaitAdd(t, p, ignore)) && Resting(ss[n], t)
    ensures p < |ss[n].stage| == |ss[n].result| && ss[n].stage[p].Released?
    ensures var answers := EngineTheorems.TrueAnswers(ss, acts, n, p);
            |answers| == 1 && ss[n].result[p] == if ignore then None else Some(answers[0])
  {
    AddedAs(ss, acts, k, n, t, p, ignore);
    WaitallReturns(ss, acts, n, t, PlaceOf(ss, k, t));
  }
}
