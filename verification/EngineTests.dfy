/** What a call of test answers, in every run and in terms of its caller's arguments. */
module EngineTests {
  import opened Engine
  import opened EngineInv
  import opened EngineRuns
  import EngineApp
  import EngineTheorems

  /** Thread t is inside a test of request p. */
  predicate IsTest(a: AppPc, p: nat, ignore: bool)
  {
    (a.TestCell? || a.TestFlag? || a.TestCopy?) && a.post == p && a.ignore == ignore
  }

  ghost predicate Testing(s: State, t: nat, p: nat, ignore: bool)
  {
    t < |s.apps| && IsTest(s.apps[t], p, ignore) && p < |s.answers| == |s.stage| == |s.stored|
  }

  /** What the call must answer if it returns in state s: the request's own status once it is finished, to a caller that
      asked for it. */
  function Answer(s: State, p: nat, ignore: bool): TestAnswer
    requires p < |s.stage| == |s.stored|
  {
    if !Finished(s.stage[p]) then No else Yes(if ignore then None else s.stored[p])
  }

  /** The call goes on, or it returns with the right answer. */
  ghost predicate TestStep(s: State, s': State, t: nat, p: nat, ignore: bool)
    requires Testing(s, t, p, ignore)
  {
    && t < |s'.apps| && p < |s'.answers| == |s'.stage| == |s'.stored|
    && if s'.apps[t].Idle? then s'.answers[p] == s.answers[p] + [Answer(s, p, ignore)]
       else IsTest(s'.apps[t], p, ignore) && s'.answers[p] == s.answers[p]
  }

  lemma OwnStep(s: State, a: AppAction, t: nat, p: nat, ignore: bool)
    requires Sound(s) && AppEnabled(s, a) && Testing(s, t, p, ignore)
    requires a == TestLoadCell(t) || a == TestLoadFlag(t) || a == TestCopyStatus(t)
    ensures TestStep(s, AppNext(s, a), t, p, ignore)
  {
    if a.TestLoadCell? { CellStep(s, t, p, ignore); }
    else if a.TestLoadFlag? { FlagStep(s, t, p, ignore); }
    else { CopyStep(s, t, p, ignore); }
  }

  lemma CellStep(s: State, t: nat, p: nat, ignore: bool)
    requires Sound(s) && AppEnabled(s, TestLoadCell(t)) && Testing(s, t, p, ignore)
    ensures TestStep(s, TestLoadCellStep(s, t), t, p, ignore)
  {
    CellSeen(s, t);
  }

  lemma CellSeen(s: State, t: nat)
    requires Sound(s) && AppEnabled(s, TestLoadCell(t))
    ensures s.apps[t].post < |s.stage|
    ensures s.cells[s.cell[s.apps[t].post]] == INVALID ==> !Finished(s.stage[s.apps[t].post])
  {
    Open(s);
    EngineApp.TestedCell(s, t);
  }

  lemma FlagStep(s: State, t: nat, p: nat, ignore: bool)
    requires Sound(s) && AppEnabled(s, TestLoadFlag(t)) && Testing(s, t, p, ignore)
    ensures TestStep(s, TestLoadFlagStep(s, t), t, p, ignore)
  {
    FlagSeen(s, t);
  }

  lemma FlagSeen(s: State, t: nat)
    requires Sound(s) && AppEnabled(s, TestLoadFlag(t))
    ensures s.apps[t].post < |s.stage|
    ensures !s.done[s.apps[t].slot] ==> !Finished(s.stage[s.apps[t].post])
  {
    Open(s);
    EngineApp.TestedFlag(s, t);
  }

  lemma CopyStep(s: State, t: nat, p: nat, ignore: bool)
    requires Sound(s) && AppEnabled(s, TestCopyStatus(t)) && Testing(s, t, p, ignore)
    ensures TestStep(s, TestCopyStatusStep(s, t), t, p, ignore)
  {
    StatusSeen(s, t);
  }

  lemma StatusSeen(s: State, t: nat)
    requires Sound(s) && AppEnabled(s, TestCopyStatus(t))
    ensures s.apps[t].post < |s.stage| == |s.stored| && Finished(s.stage[s.apps[t].post])
    ensures s.stored[s.apps[t].post] == Some(s.statuses[s.apps[t].slot])
  {
    Open(s);
    EngineApp.CopiedStatus(s, t);
  }

  /** No other call answers for a request under test. */
  lemma OtherStep(s: State, a: AppAction, t: nat, p: nat, ignore: bool)
    requires Sizes(s) && AppsOk(s) && AppEnabled(s, a) && Testing(s, t, p, ignore)
    requires a != TestLoadCell(t) && a != TestLoadFlag(t) && a != TestCopyStatus(t)
    ensures Testing(AppNext(s, a), t, p, ignore) && AppNext(s, a).answers[p] == s.answers[p]
  {
    if a.TestLoadCell? || a.TestLoadFlag? || a.TestCopyStatus? {
      OtherTest(s, a, t, p, ignore);
    } else {
      NoTest(s, a, t, p, ignore);
    }
  }

  lemma OtherTest(s: State, a: AppAction, t: nat, p: nat, ignore: bool)
    requires Sizes(s) && AppsOk(s) && AppEnabled(s, a) && Testing(s, t, p, ignore)
    requires (a.TestLoadCell? || a.TestLoadFlag? || a.TestCopyStatus?) && a.thread != t
    ensures Testing(AppNext(s, a), t, p, ignore) && AppNext(s, a).answers[p] == s.answers[p]
  {
    assert s.holder[p] == InCall(t) && s.holder[s.apps[a.thread].post] == InCall(a.thread);
  }

  lemma NoTest(s: State, a: AppAction, t: nat, p: nat, ignore: bool)
    requires AppEnabled(s, a) && Testing(s, t, p, ignore) && !a.TestLoadCell? && !a.TestLoadFlag? && !a.TestCopyStatus?
    ensures Testing(AppNext(s, a), t, p, ignore) && AppNext(s, a).answers[p] == s.answers[p]
  {
  }

  lemma OffloadStep(s: State, a: OffloadAction, t: nat, p: nat, ignore: bool)
    requires OffloadEnabled(s, a) && Testing(s, t, p, ignore)
    ensures Testing(OffloadNext(s, a), t, p, ignore) && OffloadNext(s, a).answers[p] == s.answers[p]
  {
  }

  lemma Parts(s: State)
    requires Sound(s)
    ensures Sizes(s) && AppsOk(s)
  {
    Open(s);
  }

  lemma NextStep(s: State, a: Action, t: nat, p: nat, ignore: bool)
    requires Sound(s) && Enabled(s, a) && Testing(s, t, p, ignore)
    ensures TestStep(s, Next(s, a), t, p, ignore)
  {
    match a
    case ByApp(app) =>
      if app == TestLoadCell(t) || app == TestLoadFlag(t) || app == TestCopyStatus(t) {
        OwnStep(s, app, t, p, ignore);
      } else {
        Parts(s);
        OtherStep(s, app, t, p, ignore);
      }
    case ByOffload(off) => OffloadStep(s, off, t, p, ignore);
  }

  lemma RunTestStep(ss: seq<State>, acts: seq<Action>, i: nat, t: nat, p: nat, ignore: bool)
    requires IsRun(ss, acts) && i < |acts| && Testing(ss[i], t, p, ignore)
    ensures TestStep(ss[i], ss[i + 1], t, p, ignore)
  {
    RunIsSound(ss, acts, i);
    assert IsStep(ss, acts, i);
    NextStep(ss[i], acts[i], t, p, ignore);
  }

  /** The rest of a call, which has not returned before m. */
  lemma {:induction false} RestOfTest(ss: seq<State>, acts: seq<Action>, i: nat, m: nat, t: nat, p: nat, ignore: bool)
    requires IsRun(ss, acts) && i < m < |ss| && Testing(ss[i], t, p, ignore)
    requires forall j :: i < j < m ==> t < |ss[j].apps| && !ss[j].apps[t].Idle?
    ensures Testing(ss[m - 1], t, p, ignore) && ss[m - 1].answers[p] == ss[i].answers[p]
    ensures TestStep(ss[m - 1], ss[m], t, p, ignore)
    decreases m - i
  {
    RunTestStep(ss, acts, i, t, p, ignore);
    if i + 1 < m { RestOfTest(ss, acts, i + 1, m, t, p, ignore); }
  }

  lemma TestBegins(ss: seq<State>, acts: seq<Action>, k: nat, t: nat, p: nat, ignore: bool)
    requires IsRun(ss, acts) && k < |acts| && acts[k] == ByApp(TestBegin(t, p, ignore))
    ensures Testing(ss[k + 1], t, p, ignore) && p < |ss[k].answers| && ss[k + 1].answers[p] == ss[k].answers[p]
  {
    RunIsSound(ss, acts, k);
    assert IsStep(ss, acts, k);
    AnswerSizes(ss[k]);
    EntersTest(ss[k], t, p, ignore);
  }

  lemma AnswerSizes(s: State)
    requires Sound(s)
    ensures |s.answers| == |s.stage| == |s.stored|
  {
    Open(s);
  }

  lemma EntersTest(s: State, t: nat, p: nat, ignore: bool)
    requires AppEnabled(s, TestBegin(t, p, ignore)) && |s.answers| == |s.stage| == |s.stored|
    ensures Testing(TestBeginStep(s, t, p, ignore), t, p, ignore)
    ensures TestBeginStep(s, t, p, ignore).answers == s.answers
  {
  }

  /** In every run, whatever the other threads do meanwhile: the call of test that step k begins and that returns by
      step m - 1 answers once, false if its request is not finished at that last access, and otherwise true with the
      status the library answered for the request's own operation, unless the caller of this very call ignores it. */
  lemma TestAnswers(ss: seq<State>, acts: seq<Action>, k: nat, m: nat, t: nat, p: nat, ignore: bool)
    requires IsRun(ss, acts) && k + 1 < m < |ss| && acts[k] == ByApp(TestBegin(t, p, ignore))
    requires forall j :: k < j < m ==> t < |ss[j].apps| && !ss[j].apps[t].Idle?
    requires t < |ss[m].apps| && ss[m].apps[t].Idle?
    ensures p < |ss[k].answers| && p < |ss[m].answers| && p < |ss[m - 1].stage| == |ss[m - 1].stored|
    ensures ss[m].answers[p] == ss[k].answers[p] + [Answer(ss[m - 1], p, ignore)]
  {
    TestBegins(ss, acts, k, t, p, ignore);
    RestOfTest(ss, acts, k + 1, m, t, p, ignore);
  }

  /** The status a finished request has is the one true answer the library gave for its operation. */
  lemma FinishedStatus(ss: seq<State>, acts: seq<Action>, n: nat, p: nat)
    requires IsRun(ss, acts) && n <= |acts| && p < |ss[n].stage| && Finished(ss[n].stage[p])
    ensures p < |ss[n].stored| && ss[n].stored[p].Some?
    ensures EngineTheorems.TrueAnswers(ss, acts, n, p) == [ss[n].stored[p].value]
  {
    EngineTheorems.StoredIsTheAnswer(ss, acts, n, p);
    RunIsSound(ss, acts, n);
    StoredWhenFinished(ss[n], p);
  }

  lemma StoredWhenFinished(s: State, p: nat)
    requires Sound(s) && p < |s.stage| && Finished(s.stage[p])
    ensures p < |s.stored| && s.stored[p].Some?
  {
    Open(s);
  }

  /** A test that answers true fills the status it was given with the library's one true answer for the operation. */
  lemma TrueTestFillsStatus(ss: seq<State>, acts: seq<Action>, k: nat, m: nat, t: nat, p: nat, ignore: bool)
    requires IsRun(ss, acts) && k + 1 < m < |ss| && acts[k] == ByApp(TestBegin(t, p, ignore))
    requires forall j :: k < j < m ==> t < |ss[j].apps| && !ss[j].apps[t].Idle?
    requires t < |ss[m].apps| && ss[m].apps[t].Idle?
    requires p < |ss[m - 1].stage| && Finished(ss[m - 1].stage[p])
    ensures var statuses := EngineTheorems.TrueAnswers(ss, acts, m - 1, p);
            && |statuses| == 1 && p < |ss[k].answers| && p < |ss[m].answers|
            && ss[m].answers[p] == ss[k].answers[p] + [Yes(if ignore then None else Some(statuses[0]))]
  {
    TestAnswers(ss, acts, k, m, t, p, ignore);
    FinishedStatus(ss, acts, m - 1, p);
  }
}
