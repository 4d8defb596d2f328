/** Under the ticket bound the ring is linearizable to the locked queue. */
module RingFifo {
  import opened LockedQueue
  import opened Words
  import opened Ring
  import IndexMap

  /** Tickets whose element has been exchanged out: all before this one, as the consumer pops in ticket order. */
  function Taken(r: Ring): int
  {
    if r.consumer.Claimed? then r.tail - 1 else r.tail
  }

  /** At most `size` issued tickets have not had their element exchanged out, and the counters are less than 2^31
      apart, which the size implies unless it is 2^31 itself. */
  ghost predicate Bounded(r: Ring)
  {
    |r.log| - Taken(r) <= r.size && |r.log| - r.tail < HALF
  }

  lemma SizeBoundSuffices(r: Ring)
    requires r.exponent <= 30 && r.size == Pow2(r.exponent) && |r.log| - Taken(r) <= r.size
    ensures Bounded(r)
  {
    WordIsPow2();
    Pow2Monotone(r.exponent, 30);
    Pow2Sum(30, 2);
    assert Pow2(2) == 4;
  }

  ghost predicate InFlight(r: Ring, k: nat)
    requires k < |r.log| && r.log[k].thread < |r.producers|
  {
    r.producers[r.log[k].thread] == Storing(r.log[k].cmd, k)
  }

  ghost predicate Shape(r: Ring)
  {
    && r.exponent <= 31 && r.size == Pow2(r.exponent) && |r.slots| == r.size > 0
    && 0 <= Taken(r) <= r.tail <= |r.log|
    && (forall k :: 0 <= k < |r.log| ==> r.log[k].thread < |r.producers|)
    && (forall t :: 0 <= t < |r.producers| && r.producers[t].Storing? ==>
          var k := r.producers[t].ticket; Taken(r) <= k < |r.log| && r.log[k] == Ticket(r.producers[t].cmd, t))
  }

  ghost predicate ConsumerShape(r: Ring)
  {
    match r.consumer
    case Quiet => true
    case LoadedTail(word) => word == Wrap(r.tail)
    case FoundWork(word) => word == Wrap(r.tail) && r.tail < |r.log|
    case Claimed(word) => r.tail > 0 && word == Wrap(r.tail - 1)
  }

  /** What the slot of ticket k must hold: the k-th command once stored, otherwise nothing. */
  ghost function Expected(r: Ring, k: nat): Element
    requires Shape(r)
  {
    if k < |r.log| && !InFlight(r, k) then Cmd(r.log[k].cmd) else NullPtr
  }

  ghost predicate SlotsMatch(r: Ring)
    requires Shape(r)
  {
    forall k: nat :: Taken(r) <= k < Taken(r) + r.size ==> r.slots[SlotOf(r.size, k)] == Expected(r, k)
  }

  ghost predicate Inv(r: Ring)
  {
    Shape(r) && ConsumerShape(r) && Bounded(r) && SlotsMatch(r)
  }

  /** Tickets in one window of `size` have slots of their own. */
  lemma WindowInjective(size: nat, x: nat, y: nat)
    requires size > 0 && x < y < x + size
    ensures SlotOf(size, x) != SlotOf(size, y)
  {
    IndexMap.DistinctResidues(x, y, size);
  }

  lemma NextWindowSlot(size: nat, x: nat)
    requires size > 0
    ensures SlotOf(size, x + size) == SlotOf(size, x)
  {
    var q := x / size;
    assert (q + 1) * size == q * size + size;
    ModUnique(x + size, size, q + 1, x % size);
  }

  lemma FetchAddKeeps(r: Ring, t: nat, cmd: nat)
    requires Inv(r) && t < |r.producers| && r.producers[t].Away?
    requires Bounded(FetchAddStep(r, t, cmd))
    ensures Inv(FetchAddStep(r, t, cmd))
  {
    var r' := FetchAddStep(r, t, cmd);
    forall k: nat | Taken(r) <= k < Taken(r) + r.size ensures Expected(r', k) == Expected(r, k) {}
  }

  /** Under the bound the slot of a held ticket is free: the compare-exchange succeeds at the first try. */
  lemma StoreSucceeds(r: Ring, t: nat)
    requires Inv(r) && t < |r.producers| && r.producers[t].Storing?
    ensures var k := r.producers[t].ticket;
            SlotOf(r.size, Wrap(k)) == SlotOf(r.size, k) && r.slots[SlotOf(r.size, k)] == NullPtr
    ensures StoreStep(r, t).producers[t].Away?
  {
    var k := r.producers[t].ticket;
    WrappedSlot(r.size, r.exponent, k);
    assert InFlight(r, k);
    assert Expected(r, k) == NullPtr;
  }

  lemma StoreKeeps(r: Ring, t: nat)
    requires Inv(r) && t < |r.producers| && r.producers[t].Storing?
    ensures Inv(StoreStep(r, t))
  {
    var r' := StoreStep(r, t);
    var j := r.producers[t].ticket;
    StoreSucceeds(r, t);
    forall k: nat | Taken(r) <= k < Taken(r) + r.size ensures r'.slots[SlotOf(r.size, k)] == Expected(r', k) {
      if k < j { WindowInjective(r.size, k, j); }
      if j < k { WindowInjective(r.size, j, k); }
      assert r.slots[SlotOf(r.size, k)] == Expected(r, k);
    }
  }

  /** Under the bound the head test reads the true emptiness. */
  lemma HeadTestExact(r: Ring)
    requires Inv(r) && r.consumer.LoadedTail?
    ensures SignedDifference(Wrap(|r.log|), r.consumer.word) <= 0 <==> r.tail == |r.log|
  {
    WrappedTestExact(|r.log|, r.tail);
  }

  lemma LoadHeadKeeps(r: Ring)
    requires Inv(r) && r.consumer.LoadedTail?
    ensures Inv(LoadHeadStep(r))
  {
    HeadTestExact(r);
    KeepsSlots(r, LoadHeadStep(r));
  }

  /** Slots stay matched when tickets, slots, producers and the taken count stay. */
  lemma KeepsSlots(r: Ring, r': Ring)
    requires Inv(r) && Shape(r')
    requires r'.log == r.log && r'.slots == r.slots && r'.producers == r.producers && r'.size == r.size
    requires Taken(r') == Taken(r)
    ensures SlotsMatch(r')
  {
    forall k: nat | Taken(r) <= k < Taken(r) + r.size ensures r'.slots[SlotOf(r.size, k)] == Expected(r', k) {
      assert r.slots[SlotOf(r.size, k)] == Expected(r, k);
    }
  }

  /** With one consumer the compare-exchange on tail_ never fails. */
  lemma CasTailKeeps(r: Ring)
    requires Inv(r) && r.consumer.FoundWork?
    ensures CasTailStep(r).tail == r.tail + 1 && Inv(CasTailStep(r))
  {
    KeepsSlots(r, CasTailStep(r));
  }

  /** The exchange waits for, and then delivers, the command of exactly the claimed ticket. */
  lemma ExchangeDelivers(r: Ring)
    requires Inv(r) && r.consumer.Claimed?
    ensures var k := r.tail - 1;
            if InFlight(r, k) then ExchangeStep(r) == r
            else ExchangeStep(r).answers == r.answers + [Cmd(r.log[k].cmd)] && ExchangeStep(r).consumer.Quiet?
    ensures SlotOf(r.size, r.consumer.word) == SlotOf(r.size, r.tail - 1)
  {
    WrappedSlot(r.size, r.exponent, r.tail - 1);
    assert r.slots[SlotOf(r.size, r.tail - 1)] == Expected(r, r.tail - 1);
  }

  lemma ExchangeKeeps(r: Ring)
    requires Inv(r) && r.consumer.Claimed?
    ensures Inv(ExchangeStep(r))
  {
    var j, r' := r.tail - 1, ExchangeStep(r);
    ExchangeDelivers(r);
    if !InFlight(r, j) {
      ExchangeShape(r);
      forall k: nat | Taken(r') <= k < Taken(r') + r.size ensures r'.slots[SlotOf(r.size, k)] == Expected(r', k) {
        if k < j + r.size {
          WindowInjective(r.size, j, k);
          assert r.slots[SlotOf(r.size, k)] == Expected(r, k);
        } else {
          NextWindowSlot(r.size, j);
        }
      }
    }
  }

  lemma ExchangeShape(r: Ring)
    requires Inv(r) && r.consumer.Claimed? && !InFlight(r, r.tail - 1) && ExchangeStep(r) != r
    ensures Shape(ExchangeStep(r)) && Taken(ExchangeStep(r)) == r.tail
  {
  }

  lemma NextKeeps(r: Ring, a: Action)
    requires Inv(r) && Enabled(r, a) && Bounded(Next(r, a))
    ensures Inv(Next(r, a))
  {
    match a
    case FetchAdd(t, cmd) => FetchAddKeeps(r, t, cmd);
    case Store(t) => StoreKeeps(r, t);
    case LoadTail => KeepsSlots(r, LoadTailStep(r));
    case LoadHead => LoadHeadKeeps(r);
    case CasTail => CasTailKeeps(r);
    case Exchange => ExchangeKeeps(r);
  }

  lemma InitialInv(exponent: nat, threads: nat)
    requires exponent <= 31
    ensures Inv(Initial(exponent, threads)) && Linearized(Initial(exponent, threads))
  {
    assert Abs(Initial(exponent, threads)) == [];
  }

  // ---------------------------------------------------------------- linearizability

  /** The abstract queue: the commands of the tickets the consumer has not claimed, oldest first. */
  function Abs(r: Ring): seq<Element>
    requires r.tail <= |r.log|
  {
    Pushed(r.log)[r.tail..]
  }

  /** The answers given, with the one promised at the claim and not yet returned. */
  function Promises(r: Ring): seq<Element>
    requires r.consumer.Claimed? ==> 0 < r.tail <= |r.log|
  {
    if r.consumer.Claimed? then r.answers + [Cmd(r.log[r.tail - 1].cmd)] else r.answers
  }

  /** The locked queue, given the same operations in linearization order, holds the same elements and
      has given the same answers. */
  ghost predicate Linearized(r: Ring)
    requires r.tail <= |r.log| && (r.consumer.Claimed? ==> 0 < r.tail)
  {
    Replay(r.ops) == (Abs(r), Promises(r))
  }

  lemma FetchAddLinearized(r: Ring, t: nat, cmd: nat)
    requires Inv(r) && Linearized(r) && t < |r.producers| && r.producers[t].Away?
    ensures Linearized(FetchAddStep(r, t, cmd))
  {
    ReplayAppend(r.ops, Enqueue(Cmd(cmd)));
    PushedAppend(r.log, Ticket(cmd, t));
    assert Pushed(r.log + [Ticket(cmd, t)])[r.tail..] == Abs(r) + [Cmd(cmd)];
  }

  /** try_pop answers false only when the abstract queue is empty, at the moment head_ is read. */
  lemma LoadHeadLinearized(r: Ring)
    requires Inv(r) && Linearized(r) && r.consumer.LoadedTail?
    ensures Linearized(LoadHeadStep(r))
    ensures LoadHeadStep(r).consumer.Quiet? <==> Abs(r) == []
  {
    HeadTestExact(r);
    ReplayAppend(r.ops, Dequeue);
  }

  lemma CasTailLinearized(r: Ring)
    requires Inv(r) && Linearized(r) && r.consumer.FoundWork?
    ensures Linearized(CasTailStep(r))
  {
    ReplayAppend(r.ops, Dequeue);
    assert Abs(r)[0] == Cmd(r.log[r.tail].cmd) && Abs(r)[1..] == Pushed(r.log)[r.tail + 1..];
    assert CasTailStep(r).ops == r.ops + [Dequeue];
  }

  lemma StoreLinearized(r: Ring, t: nat)
    requires Inv(r) && Linearized(r) && t < |r.producers| && r.producers[t].Storing?
    ensures Linearized(StoreStep(r, t))
  {
  }

  lemma LoadTailLinearized(r: Ring)
    requires Inv(r) && Linearized(r) && r.consumer.Quiet?
    ensures Linearized(LoadTailStep(r))
  {
  }

  /** What the exchange returns is what the claim promised. */
  lemma ExchangeLinearized(r: Ring)
    requires Inv(r) && Linearized(r) && r.consumer.Claimed?
    ensures Linearized(ExchangeStep(r))
  {
    ExchangeDelivers(r);
  }

  lemma NextLinearized(r: Ring, a: Action)
    requires Inv(r) && Linearized(r) && Enabled(r, a) && Bounded(Next(r, a))
    ensures Inv(Next(r, a)) && Linearized(Next(r, a))
  {
    NextKeeps(r, a);
    match a
    case FetchAdd(t, cmd) => FetchAddLinearized(r, t, cmd);
    case Store(t) => StoreLinearized(r, t);
    case LoadTail => LoadTailLinearized(r);
    case LoadHead => LoadHeadLinearized(r);
    case CasTail => CasTailLinearized(r);
    case Exchange => ExchangeLinearized(r);
  }

  /** In every interleaving of any number of producers and one consumer in which the bound is
      respected, the ring is linearizable to the locked queue. */
  lemma {:induction false} RingRefinesLockedQueue(rs: seq<Ring>, acts: seq<Action>, exponent: nat, threads: nat)
    requires IsRun(rs, acts, exponent, threads) && exponent <= 31
    requires forall i :: 0 <= i < |rs| ==> Bounded(rs[i])
    ensures Inv(rs[|acts|]) && Linearized(rs[|acts|])
    decreases |acts|
  {
    if acts == [] {
      InitialInv(exponent, threads);
    } else {
      var n := |acts| - 1;
      RingRefinesLockedQueue(rs[..n + 1], acts[..n], exponent, threads);
      assert Bounded(rs[n + 1]);
      NextLinearized(rs[n], acts[n]);
    }
  }
}
