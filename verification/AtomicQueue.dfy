/** The ring as the code keeps it: wrapped 32-bit counters and an array addressed through the
    index map.  Every atomic action does to these fields what Ring's step does to the state. */
module AtomicQueue {
  import opened LockedQueue
  import opened Words
  import opened Ring
  import opened RingFifo
  import opened IndexMap
  import RoundUp

  class AtomicQueue {
    ghost const exponent: nat
    const size: nat
    const shuffleBits: nat
    const elements: array<Element>
    var head: nat
    var tail: nat
    ghost var ring: Ring

    ghost predicate Valid()
      reads this, elements
    {
      && 2 * shuffleBits <= exponent <= 31 && size == Pow2(exponent) > 0
      && elements.Length == size
      && ring.exponent == exponent && ring.size == size && |ring.slots| == size
      && head == Wrap(|ring.log|) && tail == Wrap(ring.tail)
      && (forall i :: 0 <= i < size ==> RemapIndex(shuffleBits, i) < size)
      && (forall i :: 0 <= i < size ==> elements[RemapIndex(shuffleBits, i)] == ring.slots[i])
    }

    /** The ring is the requested capacity rounded up to a power of two. */
    constructor (capacity: nat, elementsPerCacheLine: nat, ghost threads: nat)
      requires 1 <= capacity <= RoundUp.MAX_CAPACITY
      ensures Valid() && fresh(elements) && ring == Initial(exponent, threads)
      ensures size == RoundUp.RoundUp32(capacity) >= capacity
      ensures shuffleBits == IndexShuffleBits(true, size, elementsPerCacheLine)
    {
      ghost var e := RoundUp.RingExponent(capacity);
      var n := RoundUp.RoundUp32(capacity);
      ShuffleBitsFit(e, elementsPerCacheLine);
      exponent, size := e, n;
      shuffleBits := IndexShuffleBits(true, n, elementsPerCacheLine);
      elements := new Element[n](_ => NullPtr);
      head, tail := 0, 0;
      ring := Initial(e, threads);
      new;
      forall i: nat | i < size ensures RemapIndex(shuffleBits, i) < size { RemapInRange(shuffleBits, exponent, i); }
    }

    /** Where the code looks for the element of a counter value. */
    function Place(word: nat): (place: nat)
      requires Valid()
      reads this, elements
      ensures place < elements.Length && elements[place] == ring.slots[SlotOf(size, word)]
    {
      RemapIndex(shuffleBits, word % size)
    }

    /** Overwriting a place overwrites that slot and no other. */
    lemma PlaceUpdate(word: nat, slots: seq<Element>, contents: seq<Element>, e: Element)
      requires Valid() && contents == elements[..][Place(word) := e] && slots == ring.slots[SlotOf(size, word) := e]
      ensures forall i :: 0 <= i < size ==> contents[RemapIndex(shuffleBits, i)] == slots[i]
    {
      forall i: nat | i < size ensures contents[RemapIndex(shuffleBits, i)] == slots[i] {
        RemapPermutation(shuffleBits, exponent, i, SlotOf(size, word));
      }
    }

    /** head_.fetch_add(1) */
    method FetchAdd(ghost thread: nat, ghost cmd: nat) returns (ticket: nat)
      requires Valid() && thread < |ring.producers|
      modifies this
      ensures Valid() && ring == FetchAddStep(old(ring), thread, cmd)
      ensures ticket == Wrap(|old(ring.log)|)
    {
      ticket := head;
      head := (head + 1) % WORD;
      ring := FetchAddStep(ring, thread, cmd);
    }

    /** One compare-exchange of do_push_atomic. */
    method TryStore(ghost thread: nat, cmd: nat, ticket: nat) returns (stored: bool)
      requires Valid() && thread < |ring.producers|
      requires ring.producers[thread].Storing? && ring.producers[thread].cmd == cmd
      requires ticket == Wrap(ring.producers[thread].ticket)
      modifies this`ring, elements
      ensures Valid() && ring == StoreStep(old(ring), thread)
      ensures stored <==> ring.producers[thread].Away?
    {
      var place := Place(ticket);
      stored := elements[place] == NullPtr;
      if stored {
        PlaceUpdate(ticket, ring.slots[SlotOf(size, ticket) := Cmd(cmd)], elements[..][place := Cmd(cmd)], Cmd(cmd));
        ghost var before := elements[..];
        elements[place] := Cmd(cmd);
        assert elements[..] == before[place := Cmd(cmd)];
      }
      ring := StoreStep(ring, thread);
    }

    method LoadTail() returns (word: nat)
      requires Valid()
      modifies this`ring
      ensures Valid() && ring == LoadTailStep(old(ring)) && ring.consumer == LoadedTail(word)
    {
      word := tail;
      ring := LoadTailStep(ring);
    }

    /** head_.load and the signed test. */
    method LoadHead(word: nat) returns (found: bool)
      requires Valid() && ring.consumer == LoadedTail(word)
      modifies this`ring
      ensures Valid() && ring == LoadHeadStep(old(ring))
      ensures found <==> ring.consumer == FoundWork(word)
    {
      found := SignedDifference(head, word) > 0;
      ring := LoadHeadStep(ring);
    }

    method CasTail(word: nat) returns (claimed: bool, observed: nat)
      requires Valid() && ring.consumer == FoundWork(word)
      modifies this
      ensures Valid() && ring == CasTailStep(old(ring))
      ensures if claimed then observed == word && ring.consumer == Claimed(word)
              else ring.consumer == LoadedTail(observed)
    {
      claimed, observed := tail == word, tail;
      if claimed {
        tail := (tail + 1) % WORD;
      }
      ring := CasTailStep(ring);
    }

    /** One exchange of do_pop_atomic. */
    method Exchange(word: nat) returns (elem: Element)
      requires Valid() && ring.consumer == Claimed(word)
      modifies this`ring, elements
      ensures Valid() && ring == ExchangeStep(old(ring))
      ensures elem == old(ring.slots[SlotOf(size, word)])
    {
      var place := Place(word);
      elem := elements[place];
      PlaceUpdate(word, ring.slots[SlotOf(size, word) := NullPtr], elements[..][place := NullPtr], NullPtr);
      ghost var before := elements[..];
      elements[place] := NullPtr;
      assert elements[..] == before[place := NullPtr];
      ring := ExchangeStep(ring);
    }

    /** enqueue as a whole, when no other thread interferes and a place is left: what the locked queue does. */
    method Enqueue(ghost thread: nat, cmd: nat)
      requires Valid() && Inv(ring) && thread < |ring.producers| && ring.producers[thread].Away?
      requires |ring.log| - Taken(ring) < size && |ring.log| + 1 - ring.tail < HALF
      modifies this, elements
      ensures Valid() && Inv(ring) && ring.producers == old(ring.producers) && ring.consumer == old(ring.consumer)
      ensures Abs(ring) == Enqueued(old(Abs(ring)), Cmd(cmd))
    {
      ghost var pushed := FetchAddStep(ring, thread, cmd);
      PushIsEnqueue(ring, thread, cmd);
      var ticket := FetchAdd(thread, cmd);
      var stored := false;
      while !stored
        invariant Valid() && ring == if stored then StoreStep(pushed, thread) else pushed
        decreases !stored
      {
        stored := TryStore(thread, cmd, ticket);
      }
    }

    /** dequeue as a whole, when no other thread interferes and the oldest element is in its slot. */
    method Dequeue() returns (value: Element)
      requires Valid() && Inv(ring) && ring.consumer.Quiet?
      requires ring.tail < |ring.log| ==> !InFlight(ring, ring.tail)
      modifies this, elements
      ensures Valid() && Inv(ring) && ring.consumer.Quiet? && ring.producers == old(ring.producers)
      ensures (value, Abs(ring)) == Dequeued(old(Abs(ring)))
    {
      PopIsDequeue(ring);
      var word := LoadTail();
      var found := LoadHead(word);
      if !found {
        return NullPtr;
      }
      var claimed, observed := CasTail(word);
      value := Exchange(word);
    }
  }

  lemma PushIsEnqueue(r: Ring, t: nat, cmd: nat)
    requires Inv(r) && t < |r.producers| && r.producers[t].Away? && |r.log| - Taken(r) < r.size
    requires |r.log| + 1 - r.tail < HALF
    ensures var pushed := FetchAddStep(r, t, cmd); var r' := StoreStep(pushed, t);
            && Inv(pushed) && pushed.producers[t] == Storing(cmd, |r.log|)
            && Inv(r') && r'.producers == r.producers && r'.consumer == r.consumer
               && Abs(r') == Enqueued(Abs(r), Cmd(cmd))
  {
    var pushed := FetchAddStep(r, t, cmd);
    FetchAddKeeps(r, t, cmd);
    StoreSucceeds(pushed, t);
    StoreKeeps(pushed, t);
    PushedAppend(r.log, Ticket(cmd, t));
    assert StoreStep(pushed, t).producers == r.producers[t := Away] == r.producers;
    assert (Pushed(r.log) + [Cmd(cmd)])[r.tail..] == Abs(r) + [Cmd(cmd)];
  }

  /** An undisturbed try_pop, step by step. */
  lemma PopIsDequeue(r: Ring)
    requires Inv(r) && r.consumer.Quiet? && (r.tail < |r.log| ==> !InFlight(r, r.tail))
    ensures var loaded := LoadTailStep(r); var tested := LoadHeadStep(loaded);
            if Abs(r) == [] then tested.consumer.Quiet? && Inv(tested) && Abs(tested) == []
              && tested.producers == r.producers
            else
              && tested.consumer == FoundWork(loaded.consumer.word)
              && var claimed := CasTailStep(tested);
                 && claimed.consumer == Claimed(loaded.consumer.word)
                 && var taken := ExchangeStep(claimed);
                    && Inv(taken) && taken.consumer.Quiet? && taken.producers == r.producers
                       && Abs(taken) == Abs(r)[1..]
                    && claimed.slots[SlotOf(claimed.size, loaded.consumer.word)] == Abs(r)[0]
  {
    var loaded := LoadTailStep(r);
    NextKeeps(r, Action.LoadTail);
    HeadTestExact(loaded);
    LoadHeadKeeps(loaded);
    if r.tail < |r.log| { ClaimAndTake(LoadHeadStep(loaded)); }
  }

  lemma ClaimAndTake(r: Ring)
    requires Inv(r) && r.consumer.FoundWork? && !InFlight(r, r.tail)
    ensures var claimed := CasTailStep(r); var taken := ExchangeStep(claimed);
            && claimed.consumer == Claimed(r.consumer.word)
            && Inv(taken) && taken.consumer.Quiet? && taken.producers == r.producers && Abs(taken) == Abs(r)[1..]
            && claimed.slots[SlotOf(claimed.size, claimed.consumer.word)] == Abs(r)[0]
  {
    var claimed := CasTailStep(r);
    CasTailKeeps(r);
    ExchangeKeeps(claimed);
    ExchangeDelivers(claimed);
    assert claimed.slots[SlotOf(claimed.size, r.tail)] == Expected(claimed, r.tail);
  }
}
