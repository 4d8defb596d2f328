/** Why the bound counts tickets until their element has been exchanged out: for every ring size from 2 on a run that
    exceeds it by one ticket, with head - tail within the size all the time, delivers a later command first. */
module RingTight {
  import opened LockedQueue
  import opened Words
  import opened Ring
  import RingFifo

  /** Producer 0 has taken ticket 0 and stalls, the consumer has claimed that ticket, and producer 1 has pushed k
      commands behind it; the one with ticket `size` lies in the slot of ticket 0. */
  function Overtaking(exponent: nat, k: nat): Ring
  {
    var size := Pow2(exponent);
    Ring(exponent, size, seq(k + 1, i requires 0 <= i < k + 1 => Ticket(i, if i == 0 then 0 else 1)), 1,
         seq(size, i requires 0 <= i < size =>
           if 1 <= i <= k then Cmd(i) else if i == 0 && k == size then Cmd(size) else NullPtr),
         [Storing(0, 0), Away], Claimed(0), [], [Enqueue(Cmd(0)), Dequeue] + Pushes(k))
  }

  function Pushes(k: nat): seq<Op>
  {
    if k == 0 then [] else Pushes(k - 1) + [Enqueue(Cmd(k))]
  }

  /** The counters, as opposed to the tickets not exchanged out, stay within the size. */
  ghost predicate WithinCounters(rs: seq<Ring>)
  {
    forall i :: 0 <= i < |rs| ==>
      |rs[i].log| - rs[i].tail <= rs[i].size && |rs[i].log| - RingFifo.Taken(rs[i]) <= rs[i].size + 1
  }

  lemma WithinSnoc(rs: seq<Ring>, acts: seq<Action>, exponent: nat, threads: nat, a: Action, r: Ring)
    requires IsRun(rs, acts, exponent, threads) && WithinCounters(rs)
    requires Enabled(rs[|acts|], a) && |rs[|acts|].slots| == rs[|acts|].size > 0 && r == Next(rs[|acts|], a)
    requires |r.log| - r.tail <= r.size && |r.log| - RingFifo.Taken(r) <= r.size + 1
    ensures IsRun(rs + [r], acts + [a], exponent, threads) && WithinCounters(rs + [r])
  {
    RunSnoc(rs, acts, exponent, threads, a, r);
  }

  lemma Stalls(exponent: nat) returns (rs: seq<Ring>, acts: seq<Action>)
    ensures IsRun(rs, acts, exponent, 2) && rs[|acts|] == Overtaking(exponent, 0) && WithinCounters(rs)
  {
    var r0 := Initial(exponent, 2);
    var r1 := FetchAddStep(r0, 0, 0);
    var r2 := LoadTailStep(r1);
    var r3 := LoadHeadStep(r2);
    var r4 := CasTailStep(r3);
    rs, acts := [r0], [];
    WithinSnoc(rs, acts, exponent, 2, FetchAdd(0, 0), r1);
    rs, acts := rs + [r1], acts + [FetchAdd(0, 0)];
    WithinSnoc(rs, acts, exponent, 2, LoadTail, r2);
    rs, acts := rs + [r2], acts + [LoadTail];
    WrappedTestExact(1, 0);
    WithinSnoc(rs, acts, exponent, 2, LoadHead, r3);
    rs, acts := rs + [r3], acts + [LoadHead];
    WithinSnoc(rs, acts, exponent, 2, CasTail, r4);
    rs, acts := rs + [r4], acts + [CasTail];
    assert r4.ops == [Enqueue(Cmd(0)), Dequeue] + Pushes(0);
    assert r4.slots == Overtaking(exponent, 0).slots && r4.log == Overtaking(exponent, 0).log;
  }

  lemma SlotInRange(exponent: nat, ticket: nat)
    requires exponent <= 31 && 1 <= ticket <= Pow2(exponent)
    ensures SlotOf(Pow2(exponent), Wrap(ticket)) == if ticket < Pow2(exponent) then ticket else 0
  {
    WrappedSlot(Pow2(exponent), exponent, ticket);
    if ticket < Pow2(exponent) { ModSmall(ticket, Pow2(exponent)); } else { ModUnique(ticket, ticket, 1, 0); }
  }

  lemma PushesOn(exponent: nat, k: nat)
    requires exponent <= 31 && k < Pow2(exponent)
    ensures var r, r' := Overtaking(exponent, k), Overtaking(exponent, k + 1);
            && FetchAddStep(r, 1, k + 1).producers[1] == Storing(k + 1, k + 1)
            && StoreStep(FetchAddStep(r, 1, k + 1), 1) == r'
  {
    var r, r' := Overtaking(exponent, k), Overtaking(exponent, k + 1);
    var m := FetchAddStep(r, 1, k + 1);
    SlotInRange(exponent, k + 1);
    assert m.log == r'.log && m.ops == r'.ops;
    assert StoreStep(m, 1).slots == r'.slots;
  }

  lemma {:induction false} Overtakes(exponent: nat, k: nat) returns (rs: seq<Ring>, acts: seq<Action>)
    requires exponent <= 31 && k <= Pow2(exponent)
    ensures IsRun(rs, acts, exponent, 2) && rs[|acts|] == Overtaking(exponent, k) && WithinCounters(rs)
  {
    if k == 0 {
      rs, acts := Stalls(exponent);
    } else {
      rs, acts := Overtakes(exponent, k - 1);
      PushesOn(exponent, k - 1);
      var m := FetchAddStep(Overtaking(exponent, k - 1), 1, k);
      WithinSnoc(rs, acts, exponent, 2, FetchAdd(1, k), m);
      rs, acts := rs + [m], acts + [FetchAdd(1, k)];
      WithinSnoc(rs, acts, exponent, 2, Store(1), Overtaking(exponent, k));
      rs, acts := rs + [Overtaking(exponent, k)], acts + [Store(1)];
    }
  }

  // ---------------------------------------------------------------- no order explains it

  /** Every enqueue is of a command, and of two commands of one thread the later is enqueued only after the earlier. */
  ghost predicate InProgramOrder(ops: seq<Op>, log: seq<Ticket>)
  {
    && (forall i :: 0 <= i < |ops| && ops[i].Enqueue? ==> ops[i].elem.Cmd?)
    && (forall i, j, b ::
          0 <= i < j < |log| && log[i].thread == log[j].thread && 0 <= b < |ops|
            && ops[b] == Enqueue(Cmd(log[j].cmd)) ==>
            exists a :: 0 <= a < b && ops[a] == Enqueue(Cmd(log[i].cmd)))
  }

  lemma {:induction false} FirstInput(ops: seq<Op>) returns (b: nat)
    requires Inputs(ops) != []
    ensures b < |ops| && ops[b] == Enqueue(Inputs(ops)[0]) && forall a :: 0 <= a < b ==> !ops[a].Enqueue?
  {
    var n := |ops| - 1;
    if Inputs(ops[..n]) == [] {
      NoInputs(ops[..n]);
      b := n;
    } else {
      b := FirstInput(ops[..n]);
    }
  }

  lemma {:induction false} NoInputs(ops: seq<Op>)
    requires Inputs(ops) == []
    ensures forall a :: 0 <= a < |ops| ==> !ops[a].Enqueue?
  {
    if ops != [] { NoInputs(ops[..|ops| - 1]); }
  }

  /** In program order a command with a predecessor on its thread is never the first the queue delivers. */
  lemma NeverFirst(ops: seq<Op>, log: seq<Ticket>, i: nat, j: nat)
    requires InProgramOrder(ops, log) && i < j < |log| && log[i].thread == log[j].thread
    ensures Delivered(Replay(ops).1) == [] || Delivered(Replay(ops).1)[0] != Cmd(log[j].cmd)
  {
    var answers := Delivered(Replay(ops).1);
    ReplayIsFifo(ops);
    if answers != [] {
      assert Inputs(ops)[0] == answers[0];
      var b := FirstInput(ops);
    }
  }

  /** For every size of at least 2 a run that exceeds the bound by one ticket, with the counters within the size: the
      ring's first answer is a command of producer 1 that follows another of its commands, so no order of the
      operations that respects each thread's own order makes the locked queue answer the same. */
  lemma CounterBoundIsNotEnough(exponent: nat) returns (rs: seq<Ring>, acts: seq<Action>)
    requires 1 <= exponent <= 31
    ensures IsRun(rs, acts, exponent, 2) && WithinCounters(rs)
    ensures rs[|acts|].answers == [Cmd(Pow2(exponent))]
    ensures forall ops :: InProgramOrder(ops, rs[|acts|].log) ==>
              Delivered(Replay(ops).1) == [] || Delivered(Replay(ops).1)[0] != rs[|acts|].answers[0]
  {
    var size := Pow2(exponent);
    rs, acts := Overtakes(exponent, size);
    var r := Overtaking(exponent, size);
    ModSmall(0, size);
    Pow2Monotone(1, exponent);
    WithinSnoc(rs, acts, exponent, 2, Exchange, ExchangeStep(r));
    rs, acts := rs + [ExchangeStep(r)], acts + [Exchange];
    forall ops | InProgramOrder(ops, r.log)
      ensures Delivered(Replay(ops).1) == [] || Delivered(Replay(ops).1)[0] != Cmd(size)
    {
      NeverFirst(ops, r.log, 1, size);
    }
  }
}
