/** The two ends of the range of sizes: a ring of one slot keeps the order without the bound, and a full ring of 2^31
    slots reads as empty. */
module RingEnds {
  import opened LockedQueue
  import opened Words
  import opened Ring
  import RingFifo

  // ---------------------------------------------------------------- one slot

  /** Producers that have a ticket and have not stored. */
  function Pending(producers: seq<Producer>): nat
  {
    if producers == [] then 0
    else Pending(producers[..|producers| - 1]) + (if producers[|producers| - 1].Storing? then 1 else 0)
  }

  lemma {:induction false} PendingUpdate(producers: seq<Producer>, t: nat, p: Producer)
    requires t < |producers|
    ensures Pending(producers[t := p]) + (if producers[t].Storing? then 1 else 0)
            == Pending(producers) + (if p.Storing? then 1 else 0)
  {
    var n := |producers| - 1;
    if t == n {
      assert producers[t := p][..n] == producers[..n];
    } else {
      assert producers[t := p][..n] == producers[..n][t := p];
      PendingUpdate(producers[..n], t, p);
    }
  }

  lemma {:induction false} NobodyPending(threads: nat)
    ensures Pending(seq(threads, _ => Away)) == 0
  {
    if threads > 0 {
      assert seq(threads, _ => Away)[..threads - 1] == seq(threads - 1, _ => Away);
      NobodyPending(threads - 1);
    }
  }

  function Contents(e: Element): seq<Element>
  {
    if e.NullPtr? then [] else [e]
  }

  /** Every ticket not taken is the one in the slot or one a producer still holds. */
  ghost predicate Counted(r: Ring)
  {
    && r.size == 1 && |r.slots| == 1 && RingFifo.ConsumerShape(r)
    && |r.log| == RingFifo.Taken(r) + |Contents(r.slots[0])| + Pending(r.producers)
  }

  /** The operation that takes effect in a step: a push when it stores, a pop when it exchanges or finds no ticket. */
  function Effect(r: Ring, a: Action): seq<Op>
    requires Enabled(r, a) && |r.slots| == r.size > 0
  {
    match a
    case Store(t) => if StoreStep(r, t).producers[t].Away? then [Enqueue(Cmd(r.producers[t].cmd))] else []
    case LoadHead => if LoadHeadStep(r).consumer.Quiet? then [Dequeue] else []
    case Exchange => if ExchangeStep(r).consumer.Quiet? then [Dequeue] else []
    case _ => []
  }

  lemma StepCounted(r: Ring, a: Action)
    requires Counted(r) && Enabled(r, a) && |r.log| - r.tail < HALF
    ensures Counted(Next(r, a))
    ensures a.LoadHead? && LoadHeadStep(r).consumer.Quiet? ==> r.slots[0].NullPtr?
  {
    match a
    case FetchAdd(t, cmd) => PendingUpdate(r.producers, t, Storing(cmd, |r.log|));
    case Store(t) => PendingUpdate(r.producers, t, Away);
    case LoadTail =>
    case LoadHead => WrappedTestExact(|r.log|, r.tail);
    case CasTail =>
    case Exchange =>
  }

  lemma OnlySlot(word: nat)
    ensures SlotOf(1, word) == 0
  {
  }

  lemma StepInOrder(r: Ring, a: Action, ops: seq<Op>)
    requires Counted(r) && Enabled(r, a) && Replay(ops) == (Contents(r.slots[0]), r.answers)
    requires a.LoadHead? && LoadHeadStep(r).consumer.Quiet? ==> r.slots[0].NullPtr?
    ensures Replay(ops + Effect(r, a)) == (Contents(Next(r, a).slots[0]), Next(r, a).answers)
  {
    assert ops + [] == ops;
    if Effect(r, a) != [] {
      ReplayAppend(ops, Effect(r, a)[0]);
      assert Effect(r, a) == [Effect(r, a)[0]];
    }
    match a
    case Store(t) =>
      var e := Cmd(r.producers[t].cmd);
      OnlySlot(Wrap(r.producers[t].ticket));
      assert Enqueued([], e) == [e];
    case Exchange => OnlySlot(r.consumer.word);
    case _ =>
  }

  /** The operations of a run in the order in which they take effect, each during its own call. */
  function Effects(rs: seq<Ring>, acts: seq<Action>, n: nat): seq<Op>
    requires n <= |acts| < |rs|
    requires forall i :: 0 <= i < |acts| ==> Enabled(rs[i], acts[i]) && |rs[i].slots| == rs[i].size > 0
  {
    if n == 0 then [] else Effects(rs, acts, n - 1) + Effect(rs[n - 1], acts[n - 1])
  }

  /** With one slot every run is a run of the locked queue, however many tickets are outstanding. */
  lemma {:induction false} OneSlotIsFifo(rs: seq<Ring>, acts: seq<Action>, threads: nat, n: nat)
    requires IsRun(rs, acts, 0, threads) && n <= |acts|
    requires forall i :: 0 <= i < |rs| ==> |rs[i].log| - rs[i].tail < HALF
    ensures Counted(rs[n]) && Replay(Effects(rs, acts, n)) == (Contents(rs[n].slots[0]), rs[n].answers)
  {
    if n == 0 {
      assert Pow2(0) == 1;
      NobodyPending(threads);
    } else {
      OneSlotIsFifo(rs, acts, threads, n - 1);
      StepCounted(rs[n - 1], acts[n - 1]);
      StepInOrder(rs[n - 1], acts[n - 1], Effects(rs, acts, n - 1));
    }
  }

  // ---------------------------------------------------------------- 2^31 slots

  /** One producer has pushed k commands into a ring of 2^exponent slots. */
  function Filled(exponent: nat, k: nat): Ring
  {
    var size := Pow2(exponent);
    Ring(exponent, size, seq(k, i requires 0 <= i < k => Ticket(i, 0)), 0,
         seq(size, i requires 0 <= i < size => if i < k then Cmd(i) else NullPtr), [Away], Quiet, [], Pushes(k))
  }

  function Pushes(k: nat): seq<Op>
  {
    if k == 0 then [] else Pushes(k - 1) + [Enqueue(Cmd(k - 1))]
  }

  function Commands(k: nat): seq<Element>
  {
    if k == 0 then [] else Commands(k - 1) + [Cmd(k - 1)]
  }

  lemma {:induction false} PushesFill(k: nat)
    ensures Replay(Pushes(k)) == (Commands(k), [])
    ensures k > 0 ==> Commands(k) != [] && Commands(k)[0] == Cmd(0)
  {
    if k > 0 {
      PushesFill(k - 1);
      ReplayAppend(Pushes(k - 1), Enqueue(Cmd(k - 1)));
    }
  }

  lemma FillsOn(exponent: nat, k: nat)
    requires exponent <= 31 && k < Pow2(exponent)
    ensures var m := FetchAddStep(Filled(exponent, k), 0, k);
            m.producers[0] == Storing(k, k) && StoreStep(m, 0) == Filled(exponent, k + 1)
  {
    var r, r' := Filled(exponent, k), Filled(exponent, k + 1);
    var m := FetchAddStep(r, 0, k);
    WrappedSlot(Pow2(exponent), exponent, k);
    ModSmall(k, Pow2(exponent));
    assert m.log == r'.log && m.ops == r'.ops;
    assert StoreStep(m, 0).slots == r'.slots;
  }

  lemma {:induction false} Fills(exponent: nat, k: nat) returns (rs: seq<Ring>, acts: seq<Action>)
    requires exponent <= 31 && k <= Pow2(exponent)
    ensures IsRun(rs, acts, exponent, 1) && rs[|acts|] == Filled(exponent, k)
  {
    if k == 0 {
      rs, acts := [Initial(exponent, 1)], [];
      assert Initial(exponent, 1).slots == Filled(exponent, 0).slots;
    } else {
      rs, acts := Fills(exponent, k - 1);
      FillsOn(exponent, k - 1);
      var m := FetchAddStep(Filled(exponent, k - 1), 0, k - 1);
      RunSnoc(rs, acts, exponent, 1, FetchAdd(0, k - 1), m);
      rs, acts := rs + [m], acts + [FetchAdd(0, k - 1)];
      RunSnoc(rs, acts, exponent, 1, Store(0), Filled(exponent, k));
      rs, acts := rs + [Filled(exponent, k)], acts + [Store(0)];
    }
  }

  /** A full ring of 2^31 slots, all of whose pushes have returned, is read as empty: the pop answers null where the
      locked queue answers the oldest of 2^31 commands. */
  lemma FullRingReadsEmpty(exponent: nat) returns (rs: seq<Ring>, acts: seq<Action>)
    requires exponent == 31
    ensures IsRun(rs, acts, exponent, 1)
    ensures var r := rs[|acts|]; |r.log| - RingFifo.Taken(r) == r.size == Pow2(exponent)
    ensures rs[|acts|].answers == [NullPtr] && Replay(rs[|acts|].ops).1 == [Cmd(0)]
  {
    var size := Pow2(exponent);
    rs, acts := Fills(exponent, size);
    var r1, r2 := LoadTailStep(Filled(exponent, size)), LoadHeadStep(LoadTailStep(Filled(exponent, size)));
    RunSnoc(rs, acts, exponent, 1, LoadTail, r1);
    rs, acts := rs + [r1], acts + [LoadTail];
    ReadsEmpty(exponent);
    RunSnoc(rs, acts, exponent, 1, LoadHead, r2);
    rs, acts := rs + [r2], acts + [LoadHead];
    PushesFill(size);
    ReplayAppend(Pushes(size), Dequeue);
  }

  lemma ReadsEmpty(exponent: nat)
    requires exponent == 31
    ensures SignedDifference(Wrap(Pow2(exponent)), Wrap(0)) <= 0
  {
    WordIsPow2();
    Pow2Sum(1, exponent);
    WrappedTest(Pow2(exponent), 0);
  }
}
