/** Draining: once no further posts arrive, every iteration of the loop brings the outstanding work down. */
module EngineDrain {
  import EngineOffload
  import FreeList
  import RingFifo
  import opened Engine
  import opened EngineInv
  import opened EngineRuns

  /** Tests still to come for an operation that answers false c times before true, counting the true one. */
  function Weight(stored: Option<Status>, tests: nat, c: nat): nat
  {
    if stored.Some? || tests > c then 0 else c + 1 - tests
  }

  function Work(stored: seq<Option<Status>>, tests: seq<nat>, c: seq<nat>): nat
    requires |stored| == |tests| == |c|
  {
    if stored == [] then 0
    else
      var n := |stored| - 1;
      Work(stored[..n], tests[..n], c[..n]) + Weight(stored[n], tests[n], c[n])
  }

  lemma {:induction false} WorkUpdate(stored: seq<Option<Status>>, tests: seq<nat>, c: seq<nat>, p: nat,
      st: Option<Status>, k: nat)
    requires |stored| == |tests| == |c| && p < |stored|
    ensures Work(stored[p := st], tests[p := k], c) - Weight(st, k, c[p])
            == Work(stored, tests, c) - Weight(stored[p], tests[p], c[p])
  {
    var n := |stored| - 1;
    if p == n {
      assert stored[p := st][..n] == stored[..n] && tests[p := k][..n] == tests[..n];
    } else {
      assert stored[p := st][..n] == stored[..n][p := st] && tests[p := k][..n] == tests[..n][p := k];
      WorkUpdate(stored[..n], tests[..n], c[..n], p, st, k);
    }
  }

  lemma {:induction false} WorkLeft(stored: seq<Option<Status>>, tests: seq<nat>, c: seq<nat>, p: nat)
    requires |stored| == |tests| == |c| && p < |stored| && Work(stored, tests, c) == 0
    requires stored[p].None? ==> tests[p] <= c[p]
    ensures stored[p].Some?
  {
    var n := |stored| - 1;
    if p < n { WorkLeft(stored[..n], tests[..n], c[..n], p); }
  }

  function WorkOf(s: State, c: seq<nat>): nat
    requires |s.stored| == |s.tests| == |c|
  {
    Work(s.stored, s.tests, c)
  }

  /** The operation a step tests, if any. */
  function TestedOp(s: State, a: Action): Option<nat>
  {
    if a.ByApp? then None
    else if a.off.FirstTest? && s.off.Testing? && s.off.slot < |s.requests|
    then Some(if s.requests[s.off.slot].Active? then s.requests[s.off.slot].op else s.off.post)
    else if a.off.SweepTest? && s.off.Sweeping? && s.off.pos < |s.used| && s.used[s.off.pos] < |s.requests|
            && s.requests[s.used[s.off.pos]].Active?
    then Some(s.requests[s.used[s.off.pos]].op)
    else None
  }

  function AnswerFlag(a: OffloadAction): bool
  {
    (a.FirstTest? || a.SweepTest?) && a.flag
  }

  /** The library answers false exactly c[p] times on operation p, then true; no post begins. */
  ghost predicate Fits(s: State, a: Action, c: seq<nat>)
  {
    && (a.ByApp? ==> !a.app.PostBegin?)
    && var op := TestedOp(s, a);
       op.Some? && op.value < |c| && op.value < |s.tests| ==> (AnswerFlag(a.off) <==> s.tests[op.value] >= c[op.value])
  }

  /** Operation p has answered at most c[p] times while unfinished; the posts in q have taken their tickets. */
  ghost predicate Counting(s: State, c: seq<nat>, q: set<nat>)
  {
    && |s.stage| == |s.entry| == |s.stored| == |s.tests| == |c|
    && (forall p :: 0 <= p < |c| && s.stored[p].None? ==> s.tests[p] <= c[p])
    && (forall p :: p in q ==> p < |s.entry| && !s.entry[p].Posting?)
  }

  // ---------------------------------------------------------------- one step

  /** Application threads leave the work alone; a post that had its ticket keeps its place. */
  ghost predicate Untouched(s: State, s': State)
  {
    && s'.stored == s.stored && s'.tests == s.tests && s'.off == s.off
    && |s'.stage| == |s.stage| && |s'.entry| == |s.entry|
    && (forall p :: 0 <= p < |s.entry| && !s.entry[p].Posting? ==> s'.entry[p] == s.entry[p])
  }

  lemma AppLeavesWork(s: State, a: AppAction)
    requires Sound(s) && AppEnabled(s, a) && !a.PostBegin?
    ensures Untouched(s, AppNext(s, a))
  {
    if a.PostTicket? {
      Open(s);
      TicketLeavesWork(s, a.thread);
    } else {
      OtherAppLeavesWork(s, a);
    }
  }

  lemma TicketLeavesWork(s: State, t: nat)
    requires PostingOk(s) && AppEnabled(s, PostTicket(t))
    ensures Untouched(s, PostTicketStep(s, t))
  {
  }

  lemma OtherAppLeavesWork(s: State, a: AppAction)
    requires AppEnabled(s, a) && !a.PostBegin? && !a.PostTicket?
    ensures Untouched(s, AppNext(s, a))
  {
  }

  /** A test brings the work down by at least one. */
  lemma TestReducesWork(s: State, slot: nat, op: nat, flag: bool, status: Status, c: seq<nat>, q: set<nat>)
    requires Counting(s, c, q) && slot < |s.requests| && slot < |s.statuses| && op < |s.stage| && s.stored[op].None?
    requires flag <==> s.tests[op] >= c[op]
    ensures var s' := TestedState(s, slot, op, flag, status);
            Counting(s', c, q) && WorkOf(s', c) < WorkOf(s, c)
  {
    WorkUpdate(s.stored, s.tests, c, op, if flag then Some(status) else None, s.tests[op] + 1);
    assert s.stored[op := s.stored[op]] == s.stored;
  }

  predicate IsTest(a: OffloadAction) { a.FirstTest? || a.SweepTest? }

  lemma OtherLeavesWork(s: State, a: OffloadAction, c: seq<nat>, q: set<nat>)
    requires Counting(s, c, q) && OffloadEnabled(s, a) && !IsTest(a)
    ensures var s' := OffloadNext(s, a);
            Counting(s', c, q) && s'.stored == s.stored && s'.tests == s.tests
  {
  }

  /** The operation the first test is about is unfinished, and its own. */
  lemma FirstTested(s: State, a: OffloadAction)
    requires Sound(s) && OffloadEnabled(s, a) && a.FirstTest?
    ensures s.off.post < |s.stage| == |s.stored| && s.stored[s.off.post].None?
    ensures TestedOp(s, ByOffload(a)) == Some(s.off.post)
  {
    Open(s);
    EngineOffload.FirstOp(s);
    NotYetStored(s, s.off.post);
  }

  lemma FirstTestReduces(s: State, a: OffloadAction, c: seq<nat>, q: set<nat>)
    requires Sound(s) && Counting(s, c, q) && OffloadEnabled(s, a) && a.FirstTest? && Fits(s, ByOffload(a), c)
    ensures var s' := OffloadNext(s, a);
            Counting(s', c, q) && WorkOf(s', c) < WorkOf(s, c)
  {
    FirstTested(s, a);
    TestReducesWork(s, s.off.slot, s.off.post, a.flag, a.status, c, q);
  }

  lemma NotYetStored(s: State, p: nat)
    requires Sizes(s) && StoredOk(s) && MarksOk(s) && p < |s.stage| && s.stage[p].Published?
    requires !AwaitsMark(p, s.off, s.used, s.owner)
    ensures s.stored[p].None?
  {
  }

  lemma SweepTested(s: State, a: OffloadAction) returns (op: nat)
    requires Sound(s) && OffloadEnabled(s, a) && a.SweepTest? && s.off.pos < |s.used|
    ensures op < |s.stage| == |s.stored| && s.stored[op].None?
    ensures s.requests[s.used[s.off.pos]] == Active(op) && TestedOp(s, ByOffload(a)) == Some(op)
  {
    Open(s);
    EngineOffload.SweptOp(s);
    EngineOffload.SweptPublished(s);
    op := s.owner[s.used[s.off.pos]];
    NotYetStored(s, op);
  }

  lemma SweepTestReduces(s: State, a: OffloadAction, c: seq<nat>, q: set<nat>)
    requires Sound(s) && Counting(s, c, q) && OffloadEnabled(s, a) && a.SweepTest? && Fits(s, ByOffload(a), c)
    requires s.off.pos < |s.used|
    ensures var s' := OffloadNext(s, a);
            Counting(s', c, q) && WorkOf(s', c) < WorkOf(s, c)
  {
    var op := SweepTested(s, a);
    TestReducesWork(s, s.used[s.off.pos], op, a.flag, a.status, c, q);
  }

  // ---------------------------------------------------------------- one iteration

  /** The commands in q have reached their slots. */
  ghost predicate AllPast(s: State, q: set<nat>)
  {
    forall p :: p in q ==> p < |s.entry| && s.entry[p].Past?
  }

  /** Their operations have tested complete. */
  ghost predicate AllStored(s: State, q: set<nat>)
  {
    forall p :: p in q ==> p < |s.stored| && s.stored[p].Some?
  }

  /** An iteration that began with work w0: some work is done, or q is finished, or the test is still to come. */
  ghost predicate Progress(s: State, c: seq<nat>, q: set<nat>, w0: nat)
    requires |s.stored| == |s.tests| == |c|
  {
    || WorkOf(s, c) < w0
    || AllStored(s, q)
    || (WorkOf(s, c) == w0 && BeforeTest(s.off) && (s.off.Sweeping? ==> AllPast(s, q)))
  }

  predicate BeforeTest(off: OffloadPc)
  {
    off.Dequeuing? || off.Acquiring? || off.Clearing? || off.Publishing? || off.Calling? || off.Testing?
      || off == Sweeping(0) || off.Stopped?
  }

  /** With an empty list every operation whose command has reached its slot has tested complete. */
  lemma EmptyMeansStored(s: State, q: set<nat>)
    requires Sound(s) && AllPast(s, q) && s.used == [] && s.off.Sweeping?
    ensures AllStored(s, q)
  {
    Open(s);
    forall p | p in q ensures p < |s.stored| && s.stored[p].Some? { PastAndUnlisted(s, p); }
  }

  lemma PastAndUnlisted(s: State, p: nat)
    requires Sizes(s) && InHandOk(s) && UsedOk(s) && StoredOk(s) && SlotsOk(s)
    requires p < |s.entry| && s.entry[p].Past? && s.used == [] && s.off.Sweeping?
    ensures s.stored[p].Some?
  {
    if !Finished(s.stage[p]) { assert Pending(s.stage[p].slot, s.owner, s.stage); }
  }

  /** When dequeue finds the queue empty, every command with a ticket has reached its slot. */
  lemma EmptyQueueAllPast(s: State, c: seq<nat>, q: set<nat>)
    requires Sound(s) && Counting(s, c, q) && OffloadEnabled(s, DequeueLoadHead) && DequeueLoadHeadStep(s).off.Sweeping?
    ensures AllPast(s, q)
  {
    Open(s);
    RingFifo.HeadTestExact(s.ring);
    NothingQueued(s, q);
  }

  lemma NothingQueued(s: State, q: set<nat>)
    requires QueueOk(s) && InHandOk(s) && RingFifo.Taken(s.ring) == |s.ring.log| && !s.off.Acquiring?
    requires forall p :: p in q ==> p < |s.entry| && !s.entry[p].Posting?
    ensures AllPast(s, q)
  {
  }

  lemma MoveProgress(s: State, a: OffloadAction, c: seq<nat>, q: set<nat>)
    requires Sound(s) && Counting(s, c, q) && OffloadEnabled(s, a) && !IsTest(a) && BeforeTest(s.off)
    ensures BeforeTest(OffloadNext(s, a).off)
    ensures OffloadNext(s, a).off.Sweeping? ==> AllPast(OffloadNext(s, a), q)
  {
    SafeState(s);
    MoveBefore(s, a);
    if a.DequeueLoadHead? && DequeueLoadHeadStep(s).off.Sweeping? { EmptyQueueAllPast(s, c, q); }
  }

  lemma MoveBefore(s: State, a: OffloadAction)
    requires OffloadEnabled(s, a) && !IsTest(a) && BeforeTest(s.off) && s.pool.acquirer != FreeList.HaveHead(INVALID)
    ensures BeforeTest(OffloadNext(s, a).off)
    ensures OffloadNext(s, a).off.Sweeping? ==> a.DequeueLoadHead? && OffloadNext(s, a).entry == s.entry
  {
  }

  lemma OffloadProgress(s: State, a: OffloadAction, c: seq<nat>, q: set<nat>, w0: nat)
    requires Sound(s) && Counting(s, c, q) && OffloadEnabled(s, a) && Fits(s, ByOffload(a), c)
    requires Progress(s, c, q, w0) && !s.off.Top?
    ensures var s' := OffloadNext(s, a);
            Counting(s', c, q) && Progress(s', c, q, w0)
  {
    if AllStored(s, q) { StoredStays(s, a, q); }
    if a.FirstTest? {
      FirstTestReduces(s, a, c, q);
    } else if a.SweepTest? {
      SweepProgress(s, a, c, q, w0);
    } else {
      OtherLeavesWork(s, a, c, q);
      if BeforeTest(s.off) { MoveProgress(s, a, c, q); }
    }
  }

  lemma StoredStays(s: State, a: OffloadAction, q: set<nat>)
    requires OffloadEnabled(s, a) && AllStored(s, q)
    ensures AllStored(OffloadNext(s, a), q)
  {
  }

  lemma SweepProgress(s: State, a: OffloadAction, c: seq<nat>, q: set<nat>, w0: nat)
    requires Sound(s) && Counting(s, c, q) && OffloadEnabled(s, a) && a.SweepTest? && Fits(s, ByOffload(a), c)
    requires Progress(s, c, q, w0)
    ensures var s' := OffloadNext(s, a);
            Counting(s', c, q) && (AllStored(s', q) || Progress(s', c, q, w0))
  {
    if AllStored(s, q) { StoredStays(s, a, q); }
    if s.off.pos < |s.used| {
      SweepTestReduces(s, a, c, q);
    } else if s.off.pos == 0 && AllPast(s, q) {
      EmptyMeansStored(s, q);
      StoredStays(s, a, q);
    }
  }

  lemma UntouchedProgress(s: State, s': State, c: seq<nat>, q: set<nat>)
    requires Counting(s, c, q) && Untouched(s, s')
    ensures Counting(s', c, q) && WorkOf(s', c) == WorkOf(s, c)
    ensures forall w0 :: Progress(s, c, q, w0) ==> Progress(s', c, q, w0)
  {
  }

  lemma StepProgress(s: State, a: Action, c: seq<nat>, q: set<nat>, w0: nat)
    requires Sound(s) && Counting(s, c, q) && Enabled(s, a) && Fits(s, a, c)
    requires Progress(s, c, q, w0) && !s.off.Top?
    ensures var s' := Next(s, a);
            Counting(s', c, q) && Progress(s', c, q, w0)
  {
    match a
    case ByApp(app) =>
      AppLeavesWork(s, app);
      UntouchedProgress(s, AppNext(s, app), c, q);
    case ByOffload(off) => OffloadProgress(s, off, c, q, w0);
  }

  /** Between iterations only application threads move, and they leave the work as it is; Loop starts an iteration. */
  lemma TopStep(s: State, a: Action, c: seq<nat>, q: set<nat>)
    requires Sound(s) && Counting(s, c, q) && Enabled(s, a) && Fits(s, a, c) && s.off.Top?
    ensures var s' := Next(s, a);
            && Counting(s', c, q) && WorkOf(s', c) == WorkOf(s, c)
            && (if a.ByApp? then s'.off.Top? else Progress(s', c, q, WorkOf(s, c)) && !s'.off.Top?)
            && (AllStored(s, q) ==> AllStored(s', q))
  {
    match a
    case ByApp(app) =>
      AppLeavesWork(s, app);
      UntouchedProgress(s, AppNext(s, app), c, q);
    case ByOffload(off) => OtherLeavesWork(s, off, c, q);
  }

  // ---------------------------------------------------------------- whole runs

  /** A run from state i on in which no post begins and every operation p answers false until its test number c[p];
      the posts in q have taken their tickets. */
  ghost predicate Draining(ss: seq<State>, acts: seq<Action>, i: nat, c: seq<nat>, q: set<nat>)
  {
    && IsRun(ss, acts) && i < |ss| && Counting(ss[i], c, q)
    && forall k :: i <= k < |acts| ==> Fits(ss[k], acts[k], c)
  }

  lemma RunTopStep(ss: seq<State>, acts: seq<Action>, i: nat, c: seq<nat>, q: set<nat>)
    requires Draining(ss, acts, i, c, q) && i < |acts| && ss[i].off.Top?
    ensures Draining(ss, acts, i + 1, c, q) && WorkOf(ss[i + 1], c) == WorkOf(ss[i], c)
    ensures if acts[i].ByApp? then ss[i + 1].off.Top?
            else Progress(ss[i + 1], c, q, WorkOf(ss[i], c)) && !ss[i + 1].off.Top?
    ensures AllStored(ss[i], q) ==> AllStored(ss[i + 1], q)
  {
    RunIsSound(ss, acts, i);
    assert IsStep(ss, acts, i);
    TopStep(ss[i], acts[i], c, q);
  }

  lemma RunStepProgress(ss: seq<State>, acts: seq<Action>, i: nat, c: seq<nat>, q: set<nat>, w0: nat)
    requires Draining(ss, acts, i, c, q) && i < |acts| && !ss[i].off.Top? && Progress(ss[i], c, q, w0)
    ensures Draining(ss, acts, i + 1, c, q) && Progress(ss[i + 1], c, q, w0)
  {
    RunIsSound(ss, acts, i);
    assert IsStep(ss, acts, i);
    StepProgress(ss[i], acts[i], c, q, w0);
  }

  /** One whole iteration of the loop: it starts at i and is back at the top at j. */
  ghost predicate Iteration(ss: seq<State>, acts: seq<Action>, i: nat, j: nat)
  {
    && i < j < |ss| && |ss| == |acts| + 1 && ss[i].off.Top? && acts[i] == ByOffload(Loop) && ss[j].off.Top?
    && forall k :: i < k < j ==> !ss[k].off.Top?
  }

  /** The rest of an iteration, from k on. */
  lemma {:induction false} RestOfIteration(ss: seq<State>, acts: seq<Action>, c: seq<nat>, q: set<nat>, k: nat, j: nat,
      w0: nat)
    requires Draining(ss, acts, k, c, q) && Progress(ss[k], c, q, w0) && k <= j < |ss|
    requires forall m :: k <= m < j ==> !ss[m].off.Top?
    ensures Draining(ss, acts, j, c, q) && Progress(ss[j], c, q, w0)
    decreases j - k
  {
    if k < j {
      RunStepProgress(ss, acts, k, c, q, w0);
      RestOfIteration(ss, acts, c, q, k + 1, j, w0);
    }
  }

  /** Every iteration strictly reduces the work, whatever the sweep skips, until the operations in q are complete. */
  lemma IterationReducesWork(ss: seq<State>, acts: seq<Action>, c: seq<nat>, q: set<nat>, i: nat, j: nat)
    requires Draining(ss, acts, i, c, q) && Iteration(ss, acts, i, j)
    ensures Draining(ss, acts, j, c, q)
    ensures WorkOf(ss[j], c) < WorkOf(ss[i], c) || AllStored(ss[j], q)
  {
    RunTopStep(ss, acts, i, c, q);
    RestOfIteration(ss, acts, c, q, i + 1, j, WorkOf(ss[i], c));
  }

  /** Waiting at the top leaves the work as it is. */
  lemma {:induction false} IdleAtTop(ss: seq<State>, acts: seq<Action>, c: seq<nat>, q: set<nat>, i: nat, j: nat)
    requires Draining(ss, acts, i, c, q) && i <= j < |ss| && (forall k :: i <= k <= j ==> ss[k].off.Top?)
    ensures Draining(ss, acts, j, c, q) && WorkOf(ss[j], c) == WorkOf(ss[i], c)
    decreases j - i
  {
    if i < j {
      RunTopStep(ss, acts, i, c, q);
      IdleAtTop(ss, acts, c, q, i + 1, j);
    }
  }

  /** What has tested complete stays so. */
  lemma {:induction false} StoredForGood(ss: seq<State>, acts: seq<Action>, q: set<nat>, i: nat, j: nat)
    requires IsRun(ss, acts) && i <= j < |ss| && AllStored(ss[i], q)
    ensures AllStored(ss[j], q)
    decreases j - i
  {
    if i < j {
      RunStoredStays(ss, acts, q, i);
      StoredForGood(ss, acts, q, i + 1, j);
    }
  }

  lemma RunStoredStays(ss: seq<State>, acts: seq<Action>, q: set<nat>, i: nat)
    requires IsRun(ss, acts) && i < |acts| && AllStored(ss[i], q)
    ensures AllStored(ss[i + 1], q)
  {
    forall p | p in q ensures p < |ss[i + 1].stored| && ss[i + 1].stored[p].Some? {
      RunStores(ss, acts, i, p);
    }
  }

  /** Successive iterations, separated only by steps of application threads at the top; rounds[k] is the k-th one. */
  ghost predicate Rounds(ss: seq<State>, acts: seq<Action>, i: nat, rounds: seq<(nat, nat)>)
    decreases |rounds|
  {
    rounds != [] ==>
      && i <= rounds[0].0 && Iteration(ss, acts, rounds[0].0, rounds[0].1)
      && (forall k :: i <= k <= rounds[0].0 ==> ss[k].off.Top?)
      && Rounds(ss, acts, rounds[0].1, rounds[1..])
  }

  function EndOf(i: nat, rounds: seq<(nat, nat)>): nat
  {
    if rounds == [] then i else rounds[|rounds| - 1].1
  }

  lemma {:induction false} RoundsReduceWork(ss: seq<State>, acts: seq<Action>, c: seq<nat>, q: set<nat>, i: nat,
      rounds: seq<(nat, nat)>)
    requires Draining(ss, acts, i, c, q) && ss[i].off.Top? && Rounds(ss, acts, i, rounds)
    ensures var e := EndOf(i, rounds);
            && i <= e && Draining(ss, acts, e, c, q) && ss[e].off.Top?
            && (WorkOf(ss[e], c) + |rounds| <= WorkOf(ss[i], c) || AllStored(ss[e], q))
    decreases |rounds|
  {
    if rounds != [] {
      var (a, b) := rounds[0];
      IdleAtTop(ss, acts, c, q, i, a);
      IterationReducesWork(ss, acts, c, q, a, b);
      RoundsReduceWork(ss, acts, c, q, b, rounds[1..]);
      assert EndOf(b, rounds[1..]) == EndOf(i, rounds);
      if AllStored(ss[b], q) { StoredForGood(ss, acts, q, b, EndOf(i, rounds)); }
    }
  }

  lemma MarkedAtTop(s: State, p: nat)
    requires Sound(s) && s.off.Top? && p < |s.stage| && p < |s.stored| && s.stored[p].Some?
    ensures Finished(s.stage[p])
  {
    Open(s);
  }

  /** The posts that have taken their tickets. */
  function Ticketed(s: State): set<nat>
  {
    set p: nat | p < |s.entry| && !s.entry[p].Posting?
  }

  /** The drain bound: if each operation p answers false f(p) more times before true, every operation whose command
      is queued or beyond is marked done after at most the sum of all f(p) + 1 iterations of the loop; the sum counts
      the posts still on their way into the queue, since the loop serves them too. */
  lemma DrainBound(ss: seq<State>, acts: seq<Action>, c: seq<nat>, i: nat, rounds: seq<(nat, nat)>, p: nat)
    requires i < |ss| && Draining(ss, acts, i, c, Ticketed(ss[i])) && ss[i].off.Top? && Rounds(ss, acts, i, rounds)
    requires |rounds| >= WorkOf(ss[i], c) && p in Ticketed(ss[i])
    ensures EndOf(i, rounds) < |ss| && p < |ss[EndOf(i, rounds)].stage|
    ensures Finished(ss[EndOf(i, rounds)].stage[p])
  {
    var e, q := EndOf(i, rounds), Ticketed(ss[i]);
    RoundsReduceWork(ss, acts, c, q, i, rounds);
    if !AllStored(ss[e], q) { WorkLeft(ss[e].stored, ss[e].tests, c, p); }
    RunIsSound(ss, acts, e);
    MarkedAtTop(ss[e], p);
  }
}
