/** The engine's promises to its callers. */
module EngineTheorems {
  import EngineOffload
  import EngineApp
  import FreeList
  import opened Engine
  import opened EngineInv
  import opened EngineRuns

  // ---------------------------------------------------------------- end to end

  function AsSeq(status: Option<Status>): seq<Status>
  {
    match status
    case None => []
    case Some(st) => [st]
  }

  /** The true answers of PMPI_Test on post p's operation in the first n steps of a run. */
  function TrueAnswers(ss: seq<State>, acts: seq<Action>, n: nat, p: nat): seq<Status>
    requires n <= |ss| && n <= |acts|
  {
    if n == 0 then [] else TrueAnswers(ss, acts, n - 1, p) + AsSeq(TrueAnswer(ss[n - 1], acts[n - 1], p))
  }

  /** The library answers true at most once for each post, and that answer is the status the engine keeps for it. */
  lemma {:induction false} StoredIsTheAnswer(ss: seq<State>, acts: seq<Action>, n: nat, p: nat)
    requires IsRun(ss, acts) && n <= |acts|
    ensures TrueAnswers(ss, acts, n, p) == AsSeq(StoredFor(ss[n], p))
    decreases n
  {
    if n == 0 { NothingStored(ss, acts, p); } else { AnswersUpTo(ss, acts, n, p); }
  }

  lemma {:induction false} AnswersUpTo(ss: seq<State>, acts: seq<Action>, n: nat, p: nat)
    requires IsRun(ss, acts) && 0 < n <= |acts|
    ensures TrueAnswers(ss, acts, n, p) == AsSeq(StoredFor(ss[n], p))
    decreases n, 0
  {
    StoredIsTheAnswer(ss, acts, n - 1, p);
    AnswerAdded(ss, acts, n, p);
  }

  lemma AnswerAdded(ss: seq<State>, acts: seq<Action>, n: nat, p: nat)
    requires IsRun(ss, acts) && 0 < n <= |acts|
    requires TrueAnswers(ss, acts, n - 1, p) == AsSeq(StoredFor(ss[n - 1], p))
    ensures TrueAnswers(ss, acts, n, p) == AsSeq(StoredFor(ss[n], p))
  {
    AnswerStored(ss, acts, n, p);
  }

  lemma NothingStored(ss: seq<State>, acts: seq<Action>, p: nat)
    requires IsRun(ss, acts)
    ensures AsSeq(StoredFor(ss[0], p)) == []
  {
    assert IsStep(ss, acts, 0);
  }

  lemma AnswerStored(ss: seq<State>, acts: seq<Action>, n: nat, p: nat)
    requires IsRun(ss, acts) && 0 < n <= |acts|
    ensures AsSeq(StoredFor(ss[n - 1], p)) + AsSeq(TrueAnswer(ss[n - 1], acts[n - 1], p)) == AsSeq(StoredFor(ss[n], p))
  {
    RunStores(ss, acts, n - 1, p);
  }

  lemma ReleasedResult(s: State, p: nat)
    requires Inv(s) && p < |s.stage|
    ensures |s.stored| == |s.result| == |s.wants| == |s.stage|
    ensures Finished(s.stage[p]) ==> s.stored[p].Some?
    ensures s.stage[p].Released? ==> s.result[p] == if s.wants[p] then s.stored[p] else None
  {
  }

  /** In every run a wait that has returned copied out exactly the status the library answered for the command
      posted with that request, unless the caller asked for no status; the answer was given once. */
  lemma WaitReturnsOwnStatus(ss: seq<State>, acts: seq<Action>, n: nat, p: nat)
    requires IsRun(ss, acts) && n <= |acts|
    requires p < |ss[n].stage| && ss[n].stage[p].Released?
    ensures p < |ss[n].result| == |ss[n].wants| == |ss[n].stage|
    ensures |TrueAnswers(ss, acts, n, p)| == 1
    ensures ss[n].result[p] == if ss[n].wants[p] then Some(TrueAnswers(ss, acts, n, p)[0]) else None
  {
    RunKeepsInv(ss, acts, n);
    ReleasedResult(ss[n], p);
    StoredIsTheAnswer(ss, acts, n, p);
  }

  // ---------------------------------------------------------------- slots

  function Outstanding(stage: seq<Stage>): set<nat>
  {
    set p: nat | p < |stage| && HasSlot(stage[p]) && !stage[p].Consumed? :: stage[p].slot
  }

  function BeingReleased(stage: seq<Stage>): set<nat>
  {
    set p: nat | p < |stage| && stage[p].Consumed? :: stage[p].slot
  }

  /** Slots 1 .. size - 1 are at all times partitioned between the free chain, outstanding requests and requests in
      the middle of release; slot 0 is never handed out. */
  lemma SlotsConserved(s: State)
    requires Reachable(s)
    ensures FreeList.Elements(s.pool.stack) + Outstanding(s.stage) + BeingReleased(s.stage)
            == FreeList.Slots(s.pool.size)
    ensures FreeList.Elements(s.pool.stack) !! Outstanding(s.stage) !! BeingReleased(s.stage)
    ensures |s.pool.stack| + |Outstanding(s.stage)| + |BeingReleased(s.stage)| == s.pool.size - 1
  {
    ReachableInv(s);
    OutstandingAreOut(s);
    FreeList.SlotsPartitioned(s.pool);
  }

  lemma OutstandingAreOut(s: State)
    requires Sizes(s) && SlotsOk(s)
    ensures Outstanding(s.stage) == FreeList.OutSlots(s.pool.place)
    ensures BeingReleased(s.stage) == FreeList.LeavingSlots(s.pool.place)
  {
  }

  /** Two requests never share a slot. */
  lemma SlotsNotShared(s: State, p: nat, q: nat)
    requires Reachable(s) && p < |s.stage| && q < |s.stage| && p != q && HasSlot(s.stage[p]) && HasSlot(s.stage[q])
    ensures s.stage[p].slot != s.stage[q].slot && 1 <= s.stage[p].slot < s.pool.size
  {
    ReachableInv(s);
    SharedOwner(s, p, q);
  }

  lemma SharedOwner(s: State, p: nat, q: nat)
    requires Sizes(s) && SlotsOk(s) && FreeList.PlaceInv(s.pool) && p < |s.stage| && q < |s.stage|
    requires HasSlot(s.stage[p]) && HasSlot(s.stage[q])
    ensures s.stage[p].slot == s.stage[q].slot ==> p == q
    ensures 1 <= s.stage[p].slot < s.pool.size
  {
  }

  // ---------------------------------------------------------------- order

  lemma IssuedAre(s: State)
    requires Inv(s)
    ensures |s.issued| <= |s.ring.log| && forall i :: 0 <= i < |s.issued| ==> s.issued[i] == s.ring.log[i].cmd
    ensures forall i :: 0 <= i < |s.ring.log| ==>
            s.ring.log[i].cmd < |s.thread| && s.thread[s.ring.log[i].cmd] == s.ring.log[i].thread
    ensures forall i, j :: 0 <= i < j < |s.ring.log| && s.ring.log[i].thread == s.ring.log[j].thread ==>
            s.ring.log[i].cmd < s.ring.log[j].cmd
  {
  }

  /** Program order: the commands of one thread reach MPI in the order in which that thread posted them
      (posts are numbered in the order they begin), and no command is issued twice. */
  lemma ProgramOrder(ss: seq<State>, acts: seq<Action>, n: nat, i: nat, j: nat)
    requires IsRun(ss, acts) && n < |ss| && i < j < |ss[n].issued|
    ensures ss[n].issued[i] < |ss[n].thread| && ss[n].issued[j] < |ss[n].thread|
    ensures ss[n].thread[ss[n].issued[i]] == ss[n].thread[ss[n].issued[j]] ==> ss[n].issued[i] < ss[n].issued[j]
    ensures ss[n].issued[i] != ss[n].issued[j]
  {
    RunKeepsInv(ss, acts, n);
    IssuedAre(ss[n]);
  }

  // ---------------------------------------------------------------- the list of used slots

  /** Between iterations used_ has no duplicates and holds exactly the acquired slots whose operation has not tested
      complete, each with the handle of its own operation. */
  lemma UsedBetweenIterations(s: State, x: nat)
    requires Reachable(s) && s.off.Top?
    ensures FreeList.Distinct(s.used)
    ensures x in s.used <==> exists p: nat :: p < |s.stage| && s.stage[p] == Published(x)
    ensures x in s.used ==> x < |s.requests| && x < |s.owner| && s.requests[x] == Active(s.owner[x])
                            && s.owner[x] < |s.stage| == |s.stored| && s.stage[s.owner[x]] == Published(x)
                               && s.stored[s.owner[x]].None?
  {
    ReachableInv(s);
    UsedAtTop(s, x);
  }

  lemma UsedAtTop(s: State, x: nat)
    requires Sizes(s) && UsedOk(s) && RequestsOk(s) && InHandOk(s) && MarksOk(s) && SlotsOk(s) && s.off.Top?
    ensures FreeList.Distinct(s.used)
    ensures x in s.used <==> exists p: nat :: p < |s.stage| && s.stage[p] == Published(x)
    ensures x in s.used ==> x < |s.requests| && x < |s.owner| && s.requests[x] == Active(s.owner[x])
                            && s.owner[x] < |s.stage| == |s.stored| && s.stage[s.owner[x]] == Published(x)
                               && s.stored[s.owner[x]].None?
  {
  }

  /** The sweep never meets a null request. */
  lemma NullSkipNeverTaken(s: State)
    requires Reachable(s) && s.off.Sweeping? && s.off.pos < |s.used|
    ensures s.used[s.off.pos] < |s.requests| && s.requests[s.used[s.off.pos]].Active?
  {
    ReachableInv(s);
    EngineOffload.SweptOp(s);
  }

  /** Only between setting done_ and erasing may a listed slot be off its request, at the cursor, and acquire is
      not running then. */
  lemma OverlapOnlyAtErase(s: State, x: nat)
    requires Reachable(s) && x in s.used
    ensures x < |s.pool.place|
            && (!s.pool.place[x].Out? ==>
               s.off.SweepErase? && s.off.pos < |s.used| && s.used[s.off.pos] == x && s.pool.acquirer.Asleep?)
  {
    ReachableInv(s);
    UsedOut(s, x);
  }

  lemma UsedOut(s: State, x: nat)
    requires Sizes(s) && UsedOk(s) && SlotsOk(s) && OffloadOk(s) && x in s.used
    ensures x < |s.pool.place|
            && (!s.pool.place[x].Out? ==>
               s.off.SweepErase? && s.off.pos < |s.used| && s.used[s.off.pos] == x && s.pool.acquirer.Asleep?)
  {
  }

  // ---------------------------------------------------------------- request cells

  /** The cell a step stores into, whether or not that changes its value. */
  function StoresInto(s: State, a: Action): Option<nat>
  {
    match a
    case ByApp(PostBegin(_, c, _)) => Some(c)
    case ByApp(Overwrite(c, _)) => Some(c)
    case ByOffload(Publish) => if s.off.Publishing? && s.off.post < |s.cell| then Some(s.cell[s.off.post]) else None
    case _ => None
  }

  /** Who may store into a cell: a post begins on a cell of no outstanding request, the caller reuses memory of no
      outstanding request, or the offload thread turns the INVALID of an outstanding request into its slot. */
  lemma CellWrites(s: State, a: Action, c: nat)
    requires Reachable(s) && Enabled(s, a) && c < |s.cells|
    ensures c < |Next(s, a).cells| && c < |s.cellOwner|
    ensures Next(s, a).cells[c] != s.cells[c] ==> StoresInto(s, a) == Some(c)
    ensures StoresInto(s, a) == Some(c) && a.ByApp? ==>
              s.cellOwner[c].None? && (a.app.PostBegin? ==> Next(s, a).cells[c] == INVALID)
    ensures StoresInto(s, a) == Some(c) && a.ByOffload? ==>
              && s.cellOwner[c] == Some(s.off.post) && s.off.post < |s.stage|
              && s.stage[s.off.post] == Fresh(s.off.slot) && s.cells[c] == INVALID && Next(s, a).cells[c] == s.off.slot
  {
    ReachableInv(s);
    match a
    case ByApp(app) => AppCellWrites(s, app, c);
    case ByOffload(off) => OffloadCellWrites(s, off, c);
  }

  lemma AppCellWrites(s: State, a: AppAction, c: nat)
    requires Sizes(s) && AppEnabled(s, a) && c < |s.cells|
    ensures c < |AppNext(s, a).cells|
    ensures AppNext(s, a).cells[c] != s.cells[c] ==> StoresInto(s, ByApp(a)) == Some(c)
    ensures StoresInto(s, ByApp(a)) == Some(c) ==>
              s.cellOwner[c].None? && (a.PostBegin? ==> AppNext(s, a).cells[c] == INVALID)
  {
  }

  lemma OffloadCellWrites(s: State, a: OffloadAction, c: nat)
    requires Sizes(s) && CellsOk(s) && InHandOk(s) && OffloadEnabled(s, a) && c < |s.cells|
    ensures c < |OffloadNext(s, a).cells|
    ensures OffloadNext(s, a).cells[c] != s.cells[c] ==> StoresInto(s, ByOffload(a)) == Some(c)
    ensures StoresInto(s, ByOffload(a)) == Some(c) ==>
              && s.cellOwner[c] == Some(s.off.post) && s.off.post < |s.stage|
                 && s.stage[s.off.post] == Fresh(s.off.slot)
              && s.cells[c] == INVALID && OffloadNext(s, a).cells[c] == s.off.slot
  {
  }

  /** In every run the engine has written a post's cell with INVALID and then, once, with one valid slot; while the
      request is outstanding the cell still shows the last of these writes. */
  lemma CellProtocol(ss: seq<State>, acts: seq<Action>, n: nat, p: nat)
    requires IsRun(ss, acts) && n < |ss| && p < |ss[n].stage|
    ensures p < |ss[n].writes| && p < |ss[n].cell|
    ensures ss[n].writes[p] == [INVALID]
            || exists slot :: 1 <= slot < ss[n].pool.size && ss[n].writes[p] == [INVALID, slot]
    ensures !ss[n].stage[p].Released? ==>
              ss[n].cell[p] < |ss[n].cells| && |ss[n].writes[p]| > 0
                && ss[n].cells[ss[n].cell[p]] == ss[n].writes[p][|ss[n].writes[p]| - 1]
  {
    RunKeepsInv(ss, acts, n);
    CellShowsLastWrite(ss[n], p);
  }

  lemma CellShowsLastWrite(s: State, p: nat)
    requires Sizes(s) && CellsOk(s) && WritesOk(s) && p < |s.stage|
    ensures s.writes[p] == [INVALID] || exists slot :: 1 <= slot < s.pool.size && s.writes[p] == [INVALID, slot]
    ensures !s.stage[p].Released? ==>
              s.cell[p] < |s.cells| && |s.writes[p]| > 0 && s.cells[s.cell[p]] == s.writes[p][|s.writes[p]| - 1]
  {
    if |s.writes[p]| == 2 { assert s.writes[p] == [INVALID, s.writes[p][1]]; }
  }

  /** Stages only move forward, so a released request stays released. */
  lemma {:induction false} StagesMoveForward(ss: seq<State>, acts: seq<Action>, i: nat, j: nat, p: nat)
    requires IsRun(ss, acts) && i <= j < |ss| && p < |ss[i].stage|
    ensures p < |ss[j].stage| && Rank(ss[i].stage[p]) <= Rank(ss[j].stage[p])
    decreases j - i
  {
    if i < j {
      RunForward(ss, acts, i, p);
      StagesMoveForward(ss, acts, i + 1, j, p);
    }
  }

  /** Once its wait has returned, the engine stores into a request's cell no more on its behalf: the cell may live on
      the caller's stack. */
  lemma {:induction false} NeverWrittenAgain(ss: seq<State>, acts: seq<Action>, i: nat, j: nat, p: nat)
    requires IsRun(ss, acts) && i <= j < |ss| && p < |ss[i].stage| && ss[i].stage[p].Released?
    ensures p < |ss[j].stage| && ss[j].stage[p].Released?
    ensures p < |ss[i].writes| && p < |ss[j].writes| && ss[j].writes[p] == ss[i].writes[p]
    ensures !(ss[j].off.Publishing? && ss[j].off.post == p)
    decreases j - i
  {
    if i < j {
      RunWritesNoMore(ss, acts, i, p);
      NeverWrittenAgain(ss, acts, i + 1, j, p);
    } else {
      RunIsSound(ss, acts, i);
      NotPublishing(ss[i], p);
    }
  }

  lemma NotPublishing(s: State, p: nat)
    requires Sound(s) && p < |s.stage| && s.stage[p].Released?
    ensures p < |s.writes| && !(s.off.Publishing? && s.off.post == p)
  {
    Open(s);
  }

  lemma RunWritesNoMore(ss: seq<State>, acts: seq<Action>, i: nat, p: nat)
    requires IsRun(ss, acts) && i < |acts| && p < |ss[i].stage| && ss[i].stage[p].Released?
    ensures p < |ss[i + 1].stage| && ss[i + 1].stage[p].Released?
    ensures p < |ss[i].writes| && p < |ss[i + 1].writes| && ss[i + 1].writes[p] == ss[i].writes[p]
  {
    RunForward(ss, acts, i, p);
    RunIsSound(ss, acts, i);
    assert IsStep(ss, acts, i);
    WritesNoMore(ss[i], acts[i], p);
  }

  lemma WritesNoMore(s: State, a: Action, p: nat)
    requires Sound(s) && Enabled(s, a) && p < |s.stage| && s.stage[p].Released?
    ensures p < |s.writes| && p < |Next(s, a).writes| && Next(s, a).writes[p] == s.writes[p]
  {
    Open(s);
    match a
    case ByApp(app) => AppWritesNoMore(s, app, p);
    case ByOffload(off) => OffloadWritesNoMore(s, off, p);
  }

  lemma AppWritesNoMore(s: State, a: AppAction, p: nat)
    requires AppEnabled(s, a) && p < |s.writes|
    ensures p < |AppNext(s, a).writes| && AppNext(s, a).writes[p] == s.writes[p]
  {
  }

  lemma OffloadWritesNoMore(s: State, a: OffloadAction, p: nat)
    requires InHandOk(s) && OffloadEnabled(s, a) && p < |s.writes| && p < |s.stage| && s.stage[p].Released?
    ensures p < |OffloadNext(s, a).writes| && OffloadNext(s, a).writes[p] == s.writes[p]
  {
  }

  lemma RunForward(ss: seq<State>, acts: seq<Action>, i: nat, p: nat)
    requires IsRun(ss, acts) && i < |acts| && p < |ss[i].stage|
    ensures p < |ss[i + 1].stage| && Forward(ss[i].stage[p], ss[i + 1].stage[p])
  {
    RunIsSound(ss, acts, i);
    assert IsStep(ss, acts, i);
    StepForward(ss[i], acts[i], p);
  }

  lemma StepForward(s: State, a: Action, p: nat)
    requires Sound(s) && Enabled(s, a) && p < |s.stage|
    ensures p < |Next(s, a).stage| && Forward(s.stage[p], Next(s, a).stage[p])
  {
    Open(s);
    match a
    case ByApp(app) => AppForward(s, app, p);
    case ByOffload(off) => OffloadForward(s, off, p);
  }

  // ---------------------------------------------------------------- test

  predicate HasStatus(answer: TestAnswer)
  {
    answer.Yes? && answer.copied.Some?
  }

  /** False answers come before true ones, and no two statuses differ. */
  ghost predicate FalseThenTrue(answers: seq<TestAnswer>)
  {
    && (forall i, j :: 0 <= i <= j < |answers| && answers[i].Yes? ==> answers[j].Yes?)
    && (forall i, j ::
          0 <= i < |answers| && 0 <= j < |answers| && HasStatus(answers[i]) && HasStatus(answers[j]) ==>
            answers[i] == answers[j])
  }

  /** Every status copied is this one. */
  ghost predicate AllAre(answers: seq<TestAnswer>, status: Option<Status>)
  {
    forall i :: 0 <= i < |answers| && HasStatus(answers[i]) ==> answers[i].copied == status
  }

  /** For one request test answers false* true*, every status it copies is the same, and that is the status wait
      returns. */
  lemma TestAgreesWithWait(ss: seq<State>, acts: seq<Action>, n: nat, p: nat)
    requires IsRun(ss, acts) && n < |ss| && p < |ss[n].stage|
    ensures |ss[n].answers| == |ss[n].result| == |ss[n].wants| == |ss[n].stage|
    ensures FalseThenTrue(ss[n].answers[p])
    ensures ss[n].stage[p].Released? && ss[n].wants[p] ==> AllAre(ss[n].answers[p], ss[n].result[p])
  {
    RunKeepsInv(ss, acts, n);
    SteadyAnswers(ss[n], p);
  }

  lemma SteadyAnswers(s: State, p: nat)
    requires Sizes(s) && AnswersOk(s) && StoredOk(s) && p < |s.stage|
    ensures FalseThenTrue(s.answers[p])
    ensures s.stage[p].Released? && s.wants[p] ==> AllAre(s.answers[p], s.result[p])
  {
    assert Steady(s.answers[p], s.stage[p], s.stored[p]);
  }

  /** test answers false exactly when, at the load that decides, the request has not been published ... */
  lemma TestSeesCell(s: State, t: nat)
    requires Reachable(s) && t < |s.apps| && s.apps[t].TestCell?
    ensures AppEnabled(s, TestLoadCell(t)) && s.apps[t].post < |s.stage|
    ensures TestLoadCellStep(s, t).apps[t].Idle?
            <==> s.stage[s.apps[t].post].Waiting? || s.stage[s.apps[t].post].Fresh?
  {
    ReachableInv(s);
    SeesCell(s, t);
  }

  lemma SeesCell(s: State, t: nat)
    requires Sizes(s) && SlotsOk(s) && CellsOk(s) && AppsOk(s) && s.pool.size <= INVALID
    requires t < |s.apps| && s.apps[t].TestCell?
    ensures AppEnabled(s, TestLoadCell(t)) && s.apps[t].post < |s.stage|
    ensures TestLoadCellStep(s, t).apps[t].Idle?
            <==> s.stage[s.apps[t].post].Waiting? || s.stage[s.apps[t].post].Fresh?
  {
  }

  /** ... or, once it has, is not finished. */
  lemma TestSeesFlag(s: State, t: nat)
    requires Reachable(s) && t < |s.apps| && s.apps[t].TestFlag?
    ensures AppEnabled(s, TestLoadFlag(t)) && s.apps[t].post < |s.stage|
    ensures TestLoadFlagStep(s, t).apps[t].Idle? <==> !Finished(s.stage[s.apps[t].post])
  {
    ReachableInv(s);
    EngineApp.TestedFlag(s, t);
    SeesFlag(s, t);
  }

  lemma SeesFlag(s: State, t: nat)
    requires Sizes(s) && AppsOk(s) && t < |s.apps| && s.apps[t].TestFlag? && s.apps[t].slot < |s.done|
    requires s.done[s.apps[t].slot] <==> Finished(s.stage[s.apps[t].post])
    ensures AppEnabled(s, TestLoadFlag(t))
    ensures TestLoadFlagStep(s, t).apps[t].Idle? <==> !Finished(s.stage[s.apps[t].post])
  {
  }

  ghost predicate TestedTrue(s: State, p: nat)
  {
    p < |s.answers| && exists i :: 0 <= i < |s.answers[p]| && s.answers[p][i].Yes?
  }

  /** After a true answer a wait does not spin: its first load of the cell finds the slot. */
  lemma WaitFindsSlot(s: State, t: nat)
    requires Reachable(s) && t < |s.apps| && s.apps[t].WaitCell? && TestedTrue(s, s.apps[t].post)
    ensures AppEnabled(s, WaitLoadCell(t)) && WaitLoadCellStep(s, t).apps[t].WaitFlag?
  {
    ReachableInv(s);
    TrueMeansComplete(s, t);
    EngineApp.TestedCell(s, t);
  }

  /** And its first load of the flag finds it set. */
  lemma WaitFindsFlag(s: State, t: nat)
    requires Reachable(s) && t < |s.apps| && s.apps[t].WaitFlag? && TestedTrue(s, s.apps[t].post)
    ensures AppEnabled(s, WaitLoadFlag(t)) && WaitLoadFlagStep(s, t).apps[t].WaitCopy?
  {
    ReachableInv(s);
    TrueMeansComplete(s, t);
    EngineApp.TestedFlag(s, t);
  }

  lemma TrueMeansComplete(s: State, t: nat)
    requires Sizes(s) && AppsOk(s) && AnswersOk(s) && t < |s.apps| && (s.apps[t].WaitCell? || s.apps[t].WaitFlag?)
    ensures TestedTrue(s, s.apps[t].post) ==> s.stage[s.apps[t].post].Complete?
  {
    assert Steady(s.answers[s.apps[t].post], s.stage[s.apps[t].post], s.stored[s.apps[t].post]);
  }
}
