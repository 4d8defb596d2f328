/** test_requests as a loop: which elements of used_ one pass tests, removes and skips. */
module Sweep {
  import FreeList
  import opened Engine
  import opened EngineInv
  import EngineQuiet
  import EngineOffload
  import opened OffloadEngine

  /** What PMPI_Test answers, and what one call of it in a pass did. */
  datatype Answer = Answer(flag: bool, status: Status)
  datatype Tested = Tested(slot: nat, flag: bool, status: Status)

  /** A pass with the iterator at position i; the k-th call of PMPI_Test answers answers(k).  Erasing moves the
      iterator to the next element and the loop's increment then skips it; after erasing the last element the pass
      ends, or starts over when `restart` is set. */
  function Pass(used: seq<nat>, i: nat, answers: nat -> Answer, k: nat, restart: bool): (seq<nat>, seq<Tested>)
    decreases |used|, if i <= |used| then |used| - i else 0
  {
    if i >= |used| then (used, [])
    else
      var a := answers(k);
      var t := Tested(used[i], a.flag, a.status);
      var rest :=
        if !a.flag then Pass(used, i + 1, answers, k + 1, restart)
        else
          var u := Erased(used, i);
          if i < |u| then Pass(u, i + 1, answers, k + 1, restart)
          else if restart && u != [] then Pass(u, 0, answers, k + 1, restart)
          else (u, []);
      (rest.0, [t] + rest.1)
  }

  function Slots(log: seq<Tested>): set<nat>
  {
    set i: nat | i < |log| :: log[i].slot
  }

  function TrueSlots(log: seq<Tested>): set<nat>
  {
    set i: nat | i < |log| && log[i].flag :: log[i].slot
  }

  /** The elements outside `gone`, in order. */
  function Without(l: seq<nat>, gone: set<nat>): seq<nat>
  {
    if l == [] then [] else (if l[0] in gone then [] else [l[0]]) + Without(l[1..], gone)
  }

  lemma ConsSlots(t: Tested, log: seq<Tested>)
    ensures Slots([t] + log) == {t.slot} + Slots(log)
    ensures TrueSlots([t] + log) == (if t.flag then {t.slot} else {}) + TrueSlots(log)
  {
    var l := [t] + log;
    forall x: nat ensures x in Slots(l) <==> x == t.slot || x in Slots(log) {
      if x in Slots(log) { var i: nat :| i < |log| && log[i].slot == x; assert l[i + 1].slot == x; }
      if x == t.slot { assert l[0].slot == x; }
    }
    forall x: nat ensures x in TrueSlots(l) <==> (t.flag && x == t.slot) || x in TrueSlots(log) {
      if x in TrueSlots(log) { var i: nat :| i < |log| && log[i].flag && log[i].slot == x; assert l[i + 1].slot == x; }
      if t.flag && x == t.slot { assert l[0].slot == x; }
    }
  }

  lemma {:induction false} WithoutConcat(a: seq<nat>, b: seq<nat>, gone: set<nat>)
    ensures Without(a + b, gone) == Without(a, gone) + Without(b, gone)
  {
    if a == [] { assert a + b == b; } else {
      assert (a + b)[1..] == a[1..] + b;
      WithoutConcat(a[1..], b, gone);
    }
  }

  lemma {:induction false} WithoutNothing(l: seq<nat>)
    ensures Without(l, {}) == l
  {
    if l != [] { WithoutNothing(l[1..]); }
  }

  lemma {:induction false} WithoutIrrelevant(l: seq<nat>, gone: set<nat>, x: nat)
    requires x !in l
    ensures Without(l, gone + {x}) == Without(l, gone)
  {
    if l != [] { WithoutIrrelevant(l[1..], gone, x); }
  }

  /** Erasing first or filtering everything at once is the same. */
  lemma WithoutErased(l: seq<nat>, i: nat, gone: set<nat>)
    requires FreeList.Distinct(l) && i < |l|
    ensures Without(Erased(l, i), gone) == Without(l, {l[i]} + gone)
  {
    var a, b := l[..i], l[i + 1..];
    assert l == a + ([l[i]] + b);
    WithoutConcat(a, b, gone);
    WithoutConcat(a, [l[i]] + b, {l[i]} + gone);
    WithoutConcat([l[i]], b, {l[i]} + gone);
    WithoutIrrelevant(a, gone, l[i]);
    WithoutIrrelevant(b, gone, l[i]);
    assert gone + {l[i]} == {l[i]} + gone;
  }

  /** For every list and every pattern of answers a pass removes exactly the slots that answered true and keeps the
      others in order; it tests only listed slots. */
  lemma {:induction false} PassRemovesExactly(used: seq<nat>, i: nat, answers: nat -> Answer, k: nat, restart: bool)
    requires FreeList.Distinct(used)
    ensures var (u, log) := Pass(used, i, answers, k, restart);
            u == Without(used, TrueSlots(log)) && (forall x :: x in Slots(log) ==> x in used)
    decreases |used|, if i <= |used| then |used| - i else 0
  {
    if i >= |used| {
      assert TrueSlots([]) == {};
      WithoutNothing(used);
    } else {
      var a := answers(k);
      var t := Tested(used[i], a.flag, a.status);
      if !a.flag {
        var log := Pass(used, i + 1, answers, k + 1, restart).1;
        PassRemovesExactly(used, i + 1, answers, k + 1, restart);
        ConsSlots(t, log);
        assert {} + TrueSlots(log) == TrueSlots(log);
      } else {
        PassAfterErase(used, i, answers, k, restart);
      }
    }
  }

  lemma PassAfterErase(used: seq<nat>, i: nat, answers: nat -> Answer, k: nat, restart: bool)
    requires FreeList.Distinct(used) && i < |used| && answers(k).flag
    ensures var (u, log) := Pass(used, i, answers, k, restart);
            u == Without(used, TrueSlots(log)) && (forall x :: x in Slots(log) ==> x in used)
    decreases |used|, if i <= |used| then |used| - i else 0, 0
  {
    var u := Erased(used, i);
    var t := Tested(used[i], true, answers(k).status);
    ErasedList(used, i);
    if i < |u| {
      PassRemovesExactly(u, i + 1, answers, k + 1, restart);
      var log := Pass(u, i + 1, answers, k + 1, restart).1;
      ConsSlots(t, log);
      WithoutErased(used, i, TrueSlots(log));
    } else if restart && u != [] {
      PassRemovesExactly(u, 0, answers, k + 1, restart);
      var log := Pass(u, 0, answers, k + 1, restart).1;
      ConsSlots(t, log);
      WithoutErased(used, i, TrueSlots(log));
    } else {
      ConsSlots(t, []);
      assert [t] + [] == [t] && TrueSlots([]) == {} && Slots([]) == {};
      WithoutErased(used, i, {});
      WithoutNothing(u);
    }
  }

  /** A pass over a non-empty list tests its first element first; if nothing answers true every element is tested,
      once and in order. */
  lemma {:induction false} PassTests(used: seq<nat>, i: nat, answers: nat -> Answer, k: nat, restart: bool)
    requires i <= |used|
    ensures var (u, log) := Pass(used, i, answers, k, restart);
            && (i < |used| ==> log != [] && log[0].slot == used[i])
            && (TrueSlots(log) == {} ==> |log| == |used| - i && forall j :: 0 <= j < |log| ==>
               log[j].slot == used[i + j])
    decreases |used| - i
  {
    if i < |used| {
      var t := Tested(used[i], answers(k).flag, answers(k).status);
      if !t.flag {
        PassTests(used, i + 1, answers, k + 1, restart);
        ConsSlots(t, Pass(used, i + 1, answers, k + 1, restart).1);
      } else {
        var log := Pass(used, i, answers, k, restart).1;
        assert log[0] == t;
        assert t.slot in TrueSlots(log);
      }
    }
  }

  /** When the pass ends at the end of the list, an element is skipped exactly when its predecessor was removed. */
  lemma {:induction false} SkippedExactly(used: seq<nat>, i: nat, answers: nat -> Answer, k: nat, j: nat)
    requires FreeList.Distinct(used) && i < j < |used|
    ensures var log := Pass(used, i, answers, k, false).1;
            used[j] in Slots(log) <==> used[j - 1] !in TrueSlots(log)
    decreases |used|, |used| - i
  {
    if answers(k).flag { SkippedAfterErase(used, i, answers, k, j); } else {
      var log := Pass(used, i + 1, answers, k + 1, false).1;
      ConsSlots(Tested(used[i], false, answers(k).status), log);
      if j > i + 1 { SkippedExactly(used, i + 1, answers, k + 1, j); } else {
        StartTested(used, i + 1, answers, k + 1);
        NotTestedBehind(used, i + 1, answers, k + 1, i);
      }
    }
  }

  lemma SkippedAfterErase(used: seq<nat>, i: nat, answers: nat -> Answer, k: nat, j: nat)
    requires FreeList.Distinct(used) && i < j < |used| && answers(k).flag
    ensures var log := Pass(used, i, answers, k, false).1;
            used[j] in Slots(log) <==> used[j - 1] !in TrueSlots(log)
    decreases |used|, |used| - i, 0
  {
    var u := Erased(used, i);
    var log := Pass(u, i + 1, answers, k + 1, false).1;
    ErasedList(used, i);
    ConsSlots(Tested(used[i], true, answers(k).status), log);
    if j == i + 1 {
      assert u[i] == used[j];
      NotTestedBehind(u, i + 1, answers, k + 1, i);
    } else {
      assert u[j - 1] == used[j] && u[j - 2] == used[j - 1];
      if j == i + 2 {
        StartTested(u, i + 1, answers, k + 1);
        NotTestedBehind(u, i + 1, answers, k + 1, i);
      } else {
        SkippedExactly(u, i + 1, answers, k + 1, j - 1);
      }
    }
  }

  /** The pass that ended at the end of the list did so by erasing its last element. */
  predicate ErasedLast(used: seq<nat>, log: seq<Tested>)
  {
    used != [] && log != [] && log[|log| - 1].flag && log[|log| - 1].slot == used[|used| - 1]
  }

  /** In the other reading the pass is the same until it has erased the last element, and only then, and only if
      something is left, starts over on what is left: so an element it had skipped may be tested after all. */
  lemma {:induction false} RestartsAtEnd(used: seq<nat>, i: nat, answers: nat -> Answer, k: nat)
    requires FreeList.Distinct(used)
    ensures var (u, log) := Pass(used, i, answers, k, false);
            var again := Pass(u, 0, answers, k + |log|, true);
            Pass(used, i, answers, k, true) == if ErasedLast(used, log) && u != [] then (again.0, log + again.1)
              else (u, log)
    decreases |used|, if i <= |used| then |used| - i else 0
  {
    if i < |used| {
      var t := Tested(used[i], answers(k).flag, answers(k).status);
      var u := Erased(used, i);
      ErasedList(used, i);
      if !t.flag {
        RestartsAtEnd(used, i + 1, answers, k + 1);
        LogPrefix(t, Pass(used, i + 1, answers, k + 1, false).1, used, used);
      } else if i < |u| {
        RestartsAtEnd(u, i + 1, answers, k + 1);
        LogPrefix(t, Pass(u, i + 1, answers, k + 1, false).1, used, u);
      } else {
        assert [t] + [] == [t] && Pass(used, i, answers, k, false) == (u, [t]);
      }
    }
  }

  lemma LogPrefix(t: Tested, log: seq<Tested>, used: seq<nat>, u: seq<nat>)
    requires used != [] && u != [] && u[|u| - 1] == used[|used| - 1]
    requires log == [] ==> !t.flag || t.slot != used[|used| - 1]
    ensures ErasedLast(used, [t] + log) == ErasedLast(u, log)
    ensures forall more: seq<Tested> :: ([t] + log) + more == [t] + (log + more)
  {
  }

  lemma StartTested(used: seq<nat>, i: nat, answers: nat -> Answer, k: nat)
    requires i < |used|
    ensures used[i] in Slots(Pass(used, i, answers, k, false).1)
  {
    PassTests(used, i, answers, k, false);
  }

  /** Without a restart nothing before the iterator is tested. */
  lemma {:induction false} NotTestedBehind(used: seq<nat>, i: nat, answers: nat -> Answer, k: nat, j: nat)
    requires FreeList.Distinct(used) && j < i && j < |used|
    ensures used[j] !in Slots(Pass(used, i, answers, k, false).1)
    ensures used[j] !in TrueSlots(Pass(used, i, answers, k, false).1)
    decreases |used|, if i <= |used| then |used| - i else 0
  {
    if i < |used| {
      var t := Tested(used[i], answers(k).flag, answers(k).status);
      if !t.flag {
        NotTestedBehind(used, i + 1, answers, k + 1, j);
        ConsSlots(t, Pass(used, i + 1, answers, k + 1, false).1);
      } else {
        var u := Erased(used, i);
        ErasedList(used, i);
        assert u[j] == used[j];
        NotTestedBehind(u, i + 1, answers, k + 1, j);
        ConsSlots(t, Pass(u, i + 1, answers, k + 1, false).1);
      }
    }
  }

  // ---------------------------------------------------------------- the loop itself

  lemma TestEnabled(s: State, flag: bool, status: Status)
    requires Sound(s) && s.off.Sweeping? && s.off.pos < |s.used|
    ensures OffloadEnabled(s, Engine.SweepTest(flag, status)) && s.requests[s.used[s.off.pos]].Active?
    ensures |s.statuses| == |s.done|
  {
    Open(s);
    EngineOffload.SweptOp(s);
    EngineQuiet.OffloadStepDefined(s, Engine.SweepTest(flag, status));
  }

  lemma TestEffect(s: State, flag: bool, status: Status)
    requires s.off.Sweeping? && s.off.pos < |s.used| && OffloadEnabled(s, Engine.SweepTest(flag, status))
    requires s.requests[s.used[s.off.pos]].Active?
    ensures var s', slot := SweepTestStep(s, flag, status), s.used[s.off.pos];
            && s'.off == (if flag then SweepMark(s.off.pos) else Sweeping(s.off.pos + 1)) && s'.used == s.used
            && slot < |s.statuses| && s'.statuses == s.statuses[slot := status] && s'.done == s.done
  {
  }

  lemma TestStep(s: State, flag: bool, status: Status)
    requires Sound(s) && s.off.Sweeping? && s.off.pos < |s.used|
    ensures OffloadEnabled(s, Engine.SweepTest(flag, status)) && Sound(SweepTestStep(s, flag, status))
    ensures var s', slot := SweepTestStep(s, flag, status), s.used[s.off.pos];
            && s'.off == (if flag then SweepMark(s.off.pos) else Sweeping(s.off.pos + 1)) && s'.used == s.used
            && slot < |s.statuses| && s'.statuses == s.statuses[slot := status] && s'.done == s.done
  {
    TestEnabled(s, flag, status);
    TestEffect(s, flag, status);
    EngineOffload.SweepTestKeeps(s, flag, status);
  }

  lemma EndStep(s: State)
    requires Sound(s) && s.off.Sweeping? && s.off.pos >= |s.used|
    ensures OffloadEnabled(s, Engine.SweepTest(false, EMPTY_STATUS)) && Sound(SweepTestStep(s, false, EMPTY_STATUS))
    ensures SweepTestStep(s, false, EMPTY_STATUS) == s.(off := Top)
  {
    EngineOffload.SweepTestKeeps(s, false, EMPTY_STATUS);
  }

  lemma MarkStep(s: State)
    requires Sound(s) && s.off.SweepMark?
    ensures OffloadEnabled(s, Engine.SweepMarkDone) && Sound(SweepMarkDoneStep(s))
    ensures var s', slot := SweepMarkDoneStep(s), s.used[s.off.pos];
            && s'.off == SweepErase(s.off.pos) && s'.used == s.used && s'.statuses == s.statuses
            && slot < |s.done| && s'.done == s.done[slot := true]
  {
    EngineQuiet.OffloadStepDefined(s, Engine.SweepMarkDone);
    EngineOffload.SweepMarkDoneKeeps(s);
  }

  lemma EraseStep(s: State, restart: bool)
    requires Sound(s) && s.off.SweepErase?
    ensures OffloadEnabled(s, Engine.SweepEraseSlot(restart)) && Sound(SweepEraseSlotStep(s, restart))
    ensures FreeList.Distinct(s.used)
  {
    UsedDistinct(s);
    EngineQuiet.OffloadStepDefined(s, Engine.SweepEraseSlot(restart));
    EngineOffload.SweepEraseSlotKeeps(s, restart);
  }

  /** The three accesses of one round over a listed slot, and what makes them possible. */
  ghost predicate RoundReady(s: State, a: Answer, restart: bool)
  {
    && s.off.Sweeping? && s.off.pos < |s.used| && OffloadEnabled(s, Engine.SweepTest(a.flag, a.status))
    && var s1 := SweepTestStep(s, a.flag, a.status);
       a.flag ==>
         && OffloadEnabled(s1, Engine.SweepMarkDone)
         && OffloadEnabled(SweepMarkDoneStep(s1), Engine.SweepEraseSlot(restart))
  }

  ghost function AfterRound(s: State, a: Answer, restart: bool): State
    requires RoundReady(s, a, restart)
  {
    var s1 := SweepTestStep(s, a.flag, a.status);
    if a.flag then SweepEraseSlotStep(SweepMarkDoneStep(s1), restart) else s1
  }

  /** What one round does to the list, the flags, the statuses and the iterator. */
  ghost predicate RoundEffect(s: State, s': State, a: Answer, restart: bool)
    requires s.off.Sweeping? && s.off.pos < |s.used|
  {
    var i, slot := s.off.pos, s.used[s.off.pos];
    && slot < |s.statuses| == |s.done| && s'.statuses == s.statuses[slot := a.status]
    && if a.flag then
         && s'.used == Erased(s.used, i) && s'.done == s.done[slot := true]
         && s'.off == (if i < |s'.used| then Sweeping(i + 1) else if restart && s'.used != [] then Sweeping(0) else Top)
       else s'.used == s.used && s'.done == s.done && s'.off == Sweeping(i + 1)
  }

  lemma RoundKeeps(s: State, a: Answer, restart: bool)
    requires Sound(s) && s.off.Sweeping? && s.off.pos < |s.used|
    ensures RoundReady(s, a, restart) && Sound(AfterRound(s, a, restart))
    ensures RoundEffect(s, AfterRound(s, a, restart), a, restart)
  {
    TestEnabled(s, a.flag, a.status);
    TestStep(s, a.flag, a.status);
    if a.flag { MarkAndErase(SweepTestStep(s, true, a.status), restart); }
  }

  lemma MarkAndErase(s: State, restart: bool)
    requires Sound(s) && s.off.SweepMark?
    ensures OffloadEnabled(s, Engine.SweepMarkDone)
    ensures OffloadEnabled(SweepMarkDoneStep(s), Engine.SweepEraseSlot(restart))
    ensures var s', slot := SweepEraseSlotStep(SweepMarkDoneStep(s), restart), s.used[s.off.pos];
            && Sound(s') && slot < |s.done| && s'.done == s.done[slot := true] && s'.statuses == s.statuses
            && s'.used == Erased(s.used, s.off.pos)
            && s'.off == (if s.off.pos < |s'.used| then Sweeping(s.off.pos + 1)
               else if restart && s'.used != [] then Sweeping(0) else Top)
  {
    MarkStep(s);
    EraseStep(SweepMarkDoneStep(s), restart);
  }

  /** One round of the loop over a listed slot. */
  method Round(e: OffloadEngine, a: Answer, restart: bool) returns (tested: Tested)
    requires e.Valid() && RoundReady(e.state, a, restart)
    modifies e, e.queue, e.queue.elements, e.pool, e.pool.nexts, e.pool.done, e.pool.statuses, e.pool.requests
    ensures e.Valid() && e.state == AfterRound(old(e.state), a, restart)
    ensures tested == Tested(old(e.state.used[e.state.off.pos]), a.flag, a.status)
  {
    tested := Tested(e.pool.used[e.off.pos], a.flag, a.status);
    e.SweepTest(a.flag, a.status);
    if a.flag {
      e.SweepMarkDone();
      e.SweepEraseSlot(restart);
    }
  }

  /** What is still to come of a pass. */
  function Rest(s: State, answers: nat -> Answer, k: nat, restart: bool): (seq<nat>, seq<Tested>)
  {
    if s.off.Sweeping? then Pass(s.used, s.off.pos, answers, k, restart) else (s.used, [])
  }

  /** Since s0 the true answers in `log` are published, status first, and their slots are off the list; no other flag
      and no status of an untested slot has changed. */
  ghost predicate Published(s0: State, s: State, log: seq<Tested>)
  {
    && |s.done| == |s0.done| && |s.statuses| == |s0.statuses|
    && (forall i :: 0 <= i < |log| && log[i].flag ==>
          log[i].slot < |s.done| && log[i].slot < |s.statuses| && s.done[log[i].slot]
            && s.statuses[log[i].slot] == log[i].status
          && log[i].slot !in s.used)
    && (forall x: nat :: x < |s.done| && x !in TrueSlots(log) ==> s.done[x] == s0.done[x])
    && (forall x: nat :: x < |s.statuses| && x !in Slots(log) ==> s.statuses[x] == s0.statuses[x])
  }

  lemma SnocSlots(log: seq<Tested>, t: Tested)
    ensures Slots(log + [t]) == Slots(log) + {t.slot}
    ensures TrueSlots(log + [t]) == TrueSlots(log) + if t.flag then {t.slot} else {}
  {
    var l := log + [t];
    assert l[|log|] == t;
    forall x: nat ensures x in Slots(l) <==> x == t.slot || x in Slots(log) {
      if x in Slots(log) { var i: nat :| i < |log| && log[i].slot == x; assert l[i].slot == x; }
    }
    forall x: nat ensures x in TrueSlots(l) <==> (t.flag && x == t.slot) || x in TrueSlots(log) {
      if x in TrueSlots(log) { var i: nat :| i < |log| && log[i].flag && log[i].slot == x; assert l[i].slot == x; }
    }
  }

  /** The loop's measure. */
  function Measure(s: State): nat
  {
    if s.off.Sweeping? && s.off.pos <= |s.used| then |s.used| - s.off.pos else 0
  }

  /** One round advances the pass by one test. */
  lemma RoundIsPass(s0: State, s: State, s': State, answers: nat -> Answer, log: seq<Tested>, restart: bool)
    requires FreeList.Distinct(s.used) && s.off.Sweeping? && s.off.pos < |s.used|
    requires RoundEffect(s, s', answers(|log|), restart)
    requires Published(s0, s, log)
    ensures var a := answers(|log|);
            var t := Tested(s.used[s.off.pos], a.flag, a.status);
            && Rest(s, answers, |log|, restart)
               == (Rest(s', answers, |log| + 1, restart).0, [t] + Rest(s', answers, |log| + 1, restart).1)
            && Published(s0, s', log + [t])
            && (|s'.used| < |s.used| || (s'.used == s.used && s'.off.Sweeping? && Measure(s') < Measure(s)))
  {
    ErasedList(s.used, s.off.pos);
    SnocSlots(log, Tested(s.used[s.off.pos], answers(|log|).flag, answers(|log|).status));
  }

  /** The states in which the loop's test is evaluated, up to the one in which the list is exhausted. */
  ghost predicate Heads(ss: seq<State>, answers: nat -> Answer, k: nat, restart: bool)
  {
    && ss != []
    && (forall i :: 0 <= i < |ss| - 1 ==>
       RoundReady(ss[i], answers(k + i), restart) && ss[i + 1] == AfterRound(ss[i], answers(k + i), restart))
    && var end := ss[|ss| - 1];
       end.off.Top? || (end.off.Sweeping? && end.off.pos >= |end.used|
         && OffloadEnabled(end, Engine.SweepTest(false, EMPTY_STATUS)))
  }

  function TestedAt(s: State, a: Answer): Tested
    requires s.off.Sweeping? && s.off.pos < |s.used|
  {
    Tested(s.used[s.off.pos], a.flag, a.status)
  }

  /** The first calls of PMPI_Test. */
  ghost predicate Logged(ss: seq<State>, answers: nat -> Answer, k: nat, log: seq<Tested>)
  {
    && |log| < |ss|
    && forall i :: 0 <= i < |log| ==>
         ss[i].off.Sweeping? && ss[i].off.pos < |ss[i].used| && log[i] == TestedAt(ss[i], answers(k + i))
  }

  lemma HeadsCons(s: State, ss: seq<State>, answers: nat -> Answer, k: nat, restart: bool)
    requires RoundReady(s, answers(k), restart) && Heads(ss, answers, k + 1, restart)
    requires ss[0] == AfterRound(s, answers(k), restart)
    ensures Heads([s] + ss, answers, k, restart)
  {
    var all := [s] + ss;
    forall i | 0 <= i < |all| - 1
      ensures RoundReady(all[i], answers(k + i), restart) && all[i + 1] == AfterRound(all[i], answers(k + i), restart)
    {
      if i > 0 {
        assert all[i] == ss[i - 1] && all[i + 1] == ss[i] && k + i == k + 1 + (i - 1);
      }
    }
  }

  /** The state in which the loop is left. */
  function End(s: State): State
  {
    s.(off := Top)
  }

  lemma UsedDistinct(s: State)
    requires Sound(s)
    ensures FreeList.Distinct(s.used)
  {
    Open(s);
  }

  /** What each round does to the list, seen without the rest of the state. */
  ghost predicate Effects(ss: seq<State>, answers: nat -> Answer, k: nat, restart: bool)
  {
    && ss != [] && (ss[|ss| - 1].off.Top?
       || (ss[|ss| - 1].off.Sweeping? && ss[|ss| - 1].off.pos >= |ss[|ss| - 1].used|))
    && forall i :: 0 <= i < |ss| - 1 ==>
         && FreeList.Distinct(ss[i].used) && ss[i].off.Sweeping? && ss[i].off.pos < |ss[i].used|
         && RoundEffect(ss[i], ss[i + 1], answers(k + i), restart)
  }

  /** A round brings the end closer. */
  lemma EffectAdvances(s: State, s': State, a: Answer, restart: bool)
    requires s.off.Sweeping? && s.off.pos < |s.used| && RoundEffect(s, s', a, restart)
    ensures s'.off.Sweeping? || s'.off.Top?
    ensures |s'.used| < |s.used| || (s'.used == s.used && Measure(s') < Measure(s))
  {
  }

  /** One round leads to the next evaluation of the loop's test, closer to the end. */
  lemma NextHead(s: State, a: Answer, restart: bool) returns (s': State)
    requires Sound(s) && s.off.Sweeping? && s.off.pos < |s.used|
    ensures RoundReady(s, a, restart) && s' == AfterRound(s, a, restart) && Sound(s')
            && (s'.off.Sweeping? || s'.off.Top?)
    ensures |s'.used| < |s.used| || (s'.used == s.used && Measure(s') < Measure(s))
  {
    RoundKeeps(s, a, restart);
    s' := AfterRound(s, a, restart);
    EffectAdvances(s, s', a, restart);
  }

  lemma LastHead(s: State, answers: nat -> Answer, k: nat, restart: bool)
    requires Sound(s) && (s.off.Top? || (s.off.Sweeping? && s.off.pos >= |s.used|))
    ensures Heads([s], answers, k, restart) && Sound(End(s))
  {
    if s.off.Sweeping? { EndStep(s); }
  }

  /** The loop runs to its end. */
  lemma {:induction false} LoopRuns(s: State, answers: nat -> Answer, k: nat, restart: bool) returns (ss: seq<State>)
    requires Sound(s) && (s.off.Sweeping? || s.off.Top?)
    ensures Heads(ss, answers, k, restart) && ss[0] == s
    decreases |s.used|, Measure(s)
  {
    if s.off.Top? || s.off.pos >= |s.used| {
      ss := [s];
      LastHead(s, answers, k, restart);
    } else {
      var s' := NextHead(s, answers(k), restart);
      ss := LoopRuns(s', answers, k + 1, restart);
      HeadsCons(s, ss, answers, k, restart);
      ss := [s] + ss;
    }
  }

  lemma {:induction false} HeadInv(ss: seq<State>, answers: nat -> Answer, i: nat, restart: bool)
    requires Heads(ss, answers, 0, restart) && Sound(ss[0]) && i < |ss|
    ensures Sound(ss[i])
  {
    if i > 0 {
      HeadInv(ss, answers, i - 1, restart);
      HeadReady(ss, answers, i - 1, restart);
      RoundKeeps(ss[i - 1], answers(i - 1), restart);
    }
  }

  lemma HeadReady(ss: seq<State>, answers: nat -> Answer, i: nat, restart: bool)
    requires Heads(ss, answers, 0, restart) && i < |ss| - 1
    ensures RoundReady(ss[i], answers(i), restart) && ss[i + 1] == AfterRound(ss[i], answers(i), restart)
  {
    assert answers(0 + i) == answers(i);
  }

  lemma HeadsHaveEffects(ss: seq<State>, answers: nat -> Answer, restart: bool)
    requires Heads(ss, answers, 0, restart) && Sound(ss[0])
    ensures Effects(ss, answers, 0, restart)
  {
    forall i | 0 <= i < |ss| - 1
      ensures FreeList.Distinct(ss[i].used) && ss[i].off.Sweeping? && ss[i].off.pos < |ss[i].used|
              && RoundEffect(ss[i], ss[i + 1], answers(0 + i), restart)
    {
      assert answers(0 + i) == answers(i);
      HeadReady(ss, answers, i, restart);
      HeadInv(ss, answers, i, restart);
      UsedDistinct(ss[i]);
      RoundKeeps(ss[i], answers(i), restart);
    }
  }

  /** It does what Pass says, and its true answers are published. */
  lemma {:induction false} LoopIsPass(s0: State, ss: seq<State>, log: seq<Tested>, answers: nat -> Answer, i: nat,
      restart: bool)
    requires Effects(ss, answers, 0, restart) && Logged(ss, answers, 0, log) && |log| == |ss| - 1
    requires i < |ss| && Published(s0, ss[i], log[..i])
    ensures Rest(ss[i], answers, i, restart) == (ss[|ss| - 1].used, log[i..]) && Published(s0, End(ss[|ss| - 1]), log)
    decreases |ss| - i
  {
    if i == |ss| - 1 {
      assert log[..i] == log;
    } else {
      var t := TestedAt(ss[i], answers(i));
      HeadEffect(ss, answers, log, i, restart);
      RoundIsPass(s0, ss[i], ss[i + 1], answers, log[..i], restart);
      assert log[..i + 1] == log[..i] + [t] && log[i..] == [t] + log[i + 1..];
      LoopIsPass(s0, ss, log, answers, i + 1, restart);
    }
  }

  lemma HeadEffect(ss: seq<State>, answers: nat -> Answer, log: seq<Tested>, i: nat, restart: bool)
    requires Effects(ss, answers, 0, restart) && Logged(ss, answers, 0, log) && i < |log| == |ss| - 1
    ensures FreeList.Distinct(ss[i].used) && ss[i].off.Sweeping? && ss[i].off.pos < |ss[i].used|
    ensures RoundEffect(ss[i], ss[i + 1], answers(i), restart) && log[i] == TestedAt(ss[i], answers(i))
  {
    assert answers(0 + i) == answers(i);
  }

  ghost predicate AtHead(s: State, ss: seq<State>, n: nat)
  {
    n < |ss| && (s == ss[n] || (n == |ss| - 1 && s == End(ss[n])))
  }

  lemma HeadFacts(s: State, ss: seq<State>, answers: nat -> Answer, n: nat, restart: bool)
    requires Heads(ss, answers, 0, restart) && AtHead(s, ss, n) && s.off.Sweeping?
    ensures s == ss[n]
    ensures s.off.pos < |s.used| ==>
            n + 1 < |ss| && RoundReady(s, answers(n), restart) && ss[n + 1] == AfterRound(s, answers(n), restart)
    ensures s.off.pos >= |s.used| ==> n == |ss| - 1 && OffloadEnabled(s, Engine.SweepTest(false, EMPTY_STATUS))
  {
    if n + 1 < |ss| { assert RoundReady(ss[n], answers(0 + n), restart); }
  }

  lemma LogSnoc(ss: seq<State>, answers: nat -> Answer, log: seq<Tested>, t: Tested)
    requires Logged(ss, answers, 0, log) && |log| + 1 < |ss| && ss[|log|].off.Sweeping?
    requires ss[|log|].off.pos < |ss[|log|].used|
    requires t == TestedAt(ss[|log|], answers(|log|))
    ensures Logged(ss, answers, 0, log + [t])
  {
  }

  /** One evaluation of the loop's test and one round of its body. */
  method Step(e: OffloadEngine, answers: nat -> Answer, k: nat, restart: bool, ghost ss: seq<State>)
      returns (tests: seq<Tested>)
    requires e.Valid() && Heads(ss, answers, 0, restart) && AtHead(e.state, ss, k) && e.state.off.Sweeping?
    modifies e, e.queue, e.queue.elements, e.pool, e.pool.nexts, e.pool.done, e.pool.statuses, e.pool.requests
    ensures e.Valid() && AtHead(e.state, ss, k + |tests|) && ss[k].off.Sweeping?
    ensures if tests == [] then !e.state.off.Sweeping?
            else ss[k].off.pos < |ss[k].used| && tests == [TestedAt(ss[k], answers(k))]
  {
    HeadFacts(e.state, ss, answers, k, restart);
    if e.off.pos >= |e.pool.used| {
      e.SweepTest(false, EMPTY_STATUS);
      tests := [];
    } else {
      var tested := Round(e, answers(k), restart);
      tests := [tested];
    }
  }

  method Loop(e: OffloadEngine, answers: nat -> Answer, restart: bool, ghost ss: seq<State>) returns (log: seq<Tested>)
    requires e.Valid() && Heads(ss, answers, 0, restart) && e.state == ss[0]
    modifies e, e.queue, e.queue.elements, e.pool, e.pool.nexts, e.pool.done, e.pool.statuses, e.pool.requests
    ensures e.Valid() && e.state == End(ss[|ss| - 1]) && |log| == |ss| - 1 && Logged(ss, answers, 0, log)
  {
    log := [];
    while e.off.Sweeping?
      invariant e.Valid() && AtHead(e.state, ss, |log|) && Logged(ss, answers, 0, log)
      decreases |ss| - |log|, e.state.off.Sweeping?
    {
      ghost var before := log;
      var tests := Step(e, answers, |log|, restart, ss);
      log := log + tests;
      if tests != [] { LogSnoc(ss, answers, before, tests[0]); } else { assert log == before; }
    }
    LoopLeft(e.state, ss, answers, |log|, restart);
  }

  lemma LoopLeft(s: State, ss: seq<State>, answers: nat -> Answer, n: nat, restart: bool)
    requires Heads(ss, answers, 0, restart) && AtHead(s, ss, n) && !s.off.Sweeping?
    ensures n == |ss| - 1 && s == End(ss[n])
  {
  }

  /** test_requests, undisturbed: the loop over used_ tests, removes and skips what Pass says and publishes every
      true answer. */
  method TestRequests(e: OffloadEngine, answers: nat -> Answer, restart: bool) returns (log: seq<Tested>)
    requires e.Valid() && Sound(e.state) && e.state.off == Sweeping(0)
    modifies e, e.queue, e.queue.elements, e.pool, e.pool.nexts, e.pool.done, e.pool.statuses, e.pool.requests
    ensures e.Valid() && Sound(e.state) && e.state.off.Top?
    ensures (e.state.used, log) == Pass(old(e.state.used), 0, answers, 0, restart)
    ensures Published(old(e.state), e.state, log)
  {
    ghost var ss := LoopRuns(e.state, answers, 0, restart);
    log := Loop(e, answers, restart, ss);
    HeadInv(ss, answers, |ss| - 1, restart);
    LastHead(ss[|ss| - 1], answers, 0, restart);
    HeadsHaveEffects(ss, answers, restart);
    assert log[..0] == [] && log[0..] == log;
    LoopIsPass(ss[0], ss, log, answers, 0, restart);
  }
}
