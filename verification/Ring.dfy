/** The lock-free ring as a state machine whose steps are its atomic actions: any number of
    producers, one consumer.  Counters are unbounded here and reach the code's tests only
    through 32-bit words; `log`, `answers` and `ops` are history. */
module Ring {
  import opened LockedQueue
  import opened Words

  const WORD: nat := 0x1_0000_0000
  const HALF: nat := 0x8000_0000

  function Wrap(x: int): nat
  {
    x % WORD
  }

  /** static_cast<int>(h - t) for unsigned h and t. */
  function SignedDifference(h: nat, t: nat): int
  {
    var d := Wrap(h - t);
    if d < HALF then d else d - WORD
  }

  /** As long as at most 2^31 - 1 tickets are outstanding, the signed test on wrapped counters is exact. */
  lemma WrappedTestExact(head: nat, tail: nat)
    requires tail <= head < tail + HALF
    ensures SignedDifference(Wrap(head), Wrap(tail)) == head - tail
  {
    ModUnique(Wrap(head) - Wrap(tail), WORD, tail / WORD - head / WORD, head - tail);
  }

  /** The wrapped test says that there is work exactly when the true difference is positive and below 2^31. */
  lemma WrappedTest(head: nat, tail: nat)
    requires tail <= head < tail + WORD
    ensures SignedDifference(Wrap(head), Wrap(tail)) > 0 <==> 0 < head - tail < HALF
  {
    ModUnique(Wrap(head) - Wrap(tail), WORD, tail / WORD - head / WORD, head - tail);
  }

  function SlotOf(size: nat, word: nat): nat
    requires size > 0
  {
    word % size
  }

  /** Wrapping a counter does not move its slot when the size is a power of two that fits a word. */
  lemma WrappedSlot(size: nat, exponent: nat, x: nat)
    requires size == Pow2(exponent) && exponent <= 31
    ensures SlotOf(size, Wrap(x)) == SlotOf(size, x)
  {
    WordIsPow2();
    Pow2Sum(exponent, 32 - exponent);
    ModOfMod(x, size, Pow2(32 - exponent));
  }

  lemma WordIsPow2()
    ensures WORD == Pow2(32)
  {
    Pow2Sum(8, 8);
    Pow2Sum(16, 16);
    assert Pow2(8) == 256;
  }

  // ---------------------------------------------------------------- state and steps

  /** The i-th fetch_add on head_: which command took the ticket, and on which thread. */
  datatype Ticket = Ticket(cmd: nat, thread: nat)

  datatype Producer = Away | Storing(cmd: nat, ticket: nat)

  /** Where the consumer is inside try_pop; the payload is its local copy of tail_. */
  datatype Consumer = Quiet | LoadedTail(word: nat) | FoundWork(word: nat) | Claimed(word: nat)

  datatype Ring = Ring(
    exponent: nat,
    size: nat,
    log: seq<Ticket>,           // head_ is Wrap(|log|)
    tail: nat,                  // tail_ is Wrap(tail)
    slots: seq<Element>,
    producers: seq<Producer>,
    consumer: Consumer,
    answers: seq<Element>,      // what try_pop has answered, NullPtr for false
    ops: seq<Op>)               // the operations at their linearization points

  datatype Action =
    | FetchAdd(thread: nat, cmd: nat)
    | Store(thread: nat)
    | LoadTail
    | LoadHead
    | CasTail
    | Exchange

  predicate Enabled(r: Ring, a: Action)
  {
    match a
    case FetchAdd(t, _) => t < |r.producers| && r.producers[t].Away?
    case Store(t) => t < |r.producers| && r.producers[t].Storing?
    case LoadTail => r.consumer.Quiet?
    case LoadHead => r.consumer.LoadedTail?
    case CasTail => r.consumer.FoundWork?
    case Exchange => r.consumer.Claimed?
  }

  /** push: the fetch_add that takes a ticket. */
  function FetchAddStep(r: Ring, t: nat, cmd: nat): Ring
    requires t < |r.producers|
  {
    r.(log := r.log + [Ticket(cmd, t)], producers := r.producers[t := Storing(cmd, |r.log|)],
       ops := r.ops + [Enqueue(Cmd(cmd))])
  }

  /** do_push_atomic: one compare-exchange of NIL for the element; a failure spins. */
  function StoreStep(r: Ring, t: nat): Ring
    requires t < |r.producers| && r.producers[t].Storing? && |r.slots| == r.size > 0
  {
    var place := SlotOf(r.size, Wrap(r.producers[t].ticket));
    if r.slots[place] != NullPtr then r
    else r.(slots := r.slots[place := Cmd(r.producers[t].cmd)], producers := r.producers[t := Away])
  }

  function LoadTailStep(r: Ring): Ring
  {
    r.(consumer := LoadedTail(Wrap(r.tail)))
  }

  /** try_pop's signed test; a non-positive difference answers false. */
  function LoadHeadStep(r: Ring): Ring
    requires r.consumer.LoadedTail?
  {
    if SignedDifference(Wrap(|r.log|), r.consumer.word) <= 0
    then r.(consumer := Quiet, answers := r.answers + [NullPtr], ops := r.ops + [Dequeue])
    else r.(consumer := FoundWork(r.consumer.word))
  }

  /** The compare-exchange on tail_; a failure reloads the observed value and tests again. */
  function CasTailStep(r: Ring): Ring
    requires r.consumer.FoundWork?
  {
    if Wrap(r.tail) == r.consumer.word
    then r.(tail := r.tail + 1, consumer := Claimed(r.consumer.word), ops := r.ops + [Dequeue])
    else r.(consumer := LoadedTail(Wrap(r.tail)))
  }

  /** do_pop_atomic: one exchange for NIL; reading NIL spins. */
  function ExchangeStep(r: Ring): Ring
    requires r.consumer.Claimed? && |r.slots| == r.size > 0
  {
    var place := SlotOf(r.size, r.consumer.word);
    if r.slots[place] == NullPtr then r
    else r.(slots := r.slots[place := NullPtr], consumer := Quiet, answers := r.answers + [r.slots[place]])
  }

  function Next(r: Ring, a: Action): Ring
    requires Enabled(r, a) && |r.slots| == r.size > 0
  {
    match a
    case FetchAdd(t, cmd) => FetchAddStep(r, t, cmd)
    case Store(t) => StoreStep(r, t)
    case LoadTail => LoadTailStep(r)
    case LoadHead => LoadHeadStep(r)
    case CasTail => CasTailStep(r)
    case Exchange => ExchangeStep(r)
  }

  function Initial(exponent: nat, threads: nat): Ring
  {
    var size := Pow2(exponent);
    Ring(exponent, size, [], 0, seq(size, _ => NullPtr), seq(threads, _ => Away), Quiet, [], [])
  }

  /** rs is a run: rs[0] is a fresh ring and each state steps to the next by the given action. */
  ghost predicate IsRun(rs: seq<Ring>, acts: seq<Action>, exponent: nat, threads: nat)
  {
    && |rs| == |acts| + 1
    && rs[0] == Initial(exponent, threads)
    && forall i :: 0 <= i < |acts| ==>
         Enabled(rs[i], acts[i]) && |rs[i].slots| == rs[i].size > 0 && rs[i + 1] == Next(rs[i], acts[i])
  }

  lemma RunSnoc(rs: seq<Ring>, acts: seq<Action>, exponent: nat, threads: nat, a: Action, r: Ring)
    requires IsRun(rs, acts, exponent, threads)
    requires Enabled(rs[|acts|], a) && |rs[|acts|].slots| == rs[|acts|].size > 0 && r == Next(rs[|acts|], a)
    ensures IsRun(rs + [r], acts + [a], exponent, threads)
  {
    var rs', acts' := rs + [r], acts + [a];
    forall i | 0 <= i < |acts'|
      ensures Enabled(rs'[i], acts'[i]) && |rs'[i].slots| == rs'[i].size > 0 && rs'[i + 1] == Next(rs'[i], acts'[i])
    {
      if i < |acts| { assert rs'[i] == rs[i] && rs'[i + 1] == rs[i + 1] && acts'[i] == acts[i]; }
    }
  }

  /** A compare-exchange on tail_ that fails has loaded the present tail: the test after it is about the present
      counters, and the next compare-exchange, undisturbed, claims the present ticket. */
  lemma ClaimRetries(r: Ring)
    requires r.consumer.FoundWork? && Wrap(r.tail) != r.consumer.word
    ensures var r1 := CasTailStep(r);
            && r1.consumer.LoadedTail? && r1.tail == r.tail
            && var r2 := LoadHeadStep(r1);
               if SignedDifference(Wrap(|r.log|), Wrap(r.tail)) <= 0
               then r2.consumer.Quiet? && r2.answers == r.answers + [NullPtr]
               else
                 && r2.consumer.FoundWork?
                 && var r3 := CasTailStep(r2); r3.consumer == Claimed(Wrap(r.tail)) && r3.tail == r.tail + 1
  {
  }

  // ---------------------------------------------------------------- nothing lost, duplicated or overwritten

  function Pushed(log: seq<Ticket>): seq<Element>
  {
    seq(|log|, i requires 0 <= i < |log| => Cmd(log[i].cmd))
  }

  function InHand(p: Producer): Element
  {
    if p.Storing? then Cmd(p.cmd) else NullPtr
  }

  function Held(producers: seq<Producer>): seq<Element>
  {
    seq(|producers|, i requires 0 <= i < |producers| => InHand(producers[i]))
  }

  /** Every pushed command was answered, or lies in a slot, or is still held by its producer; as multisets. */
  ghost predicate Conserved(r: Ring)
  {
    forall c: nat {:trigger multiset(Pushed(r.log))[Cmd(c)]} ::
      multiset(Pushed(r.log))[Cmd(c)]
      == multiset(r.answers)[Cmd(c)] + multiset(r.slots)[Cmd(c)] + multiset(Held(r.producers))[Cmd(c)]
  }

  lemma HeldUpdate(producers: seq<Producer>, t: nat, p: Producer)
    requires t < |producers|
    ensures multiset(Held(producers[t := p]))
            == multiset(Held(producers)) - multiset{InHand(producers[t])} + multiset{InHand(p)}
  {
    assert Held(producers[t := p]) == Held(producers)[t := InHand(p)];
  }

  lemma PushedAppend(log: seq<Ticket>, k: Ticket)
    ensures Pushed(log + [k]) == Pushed(log) + [Cmd(k.cmd)]
  {
  }

  lemma FetchAddConserves(r: Ring, t: nat, cmd: nat)
    requires Conserved(r) && t < |r.producers| && r.producers[t].Away?
    ensures Conserved(FetchAddStep(r, t, cmd))
  {
    var r' := FetchAddStep(r, t, cmd);
    HeldUpdate(r.producers, t, Storing(cmd, |r.log|));
    PushedAppend(r.log, Ticket(cmd, t));
    assert multiset(Pushed(r'.log)) == multiset(Pushed(r.log)) + multiset{Cmd(cmd)};
    forall c: nat ensures multiset(Pushed(r'.log))[Cmd(c)] == multiset(Pushed(r.log))[Cmd(c)] + (if c == cmd then 1
      else 0) {}
  }

  lemma StoreConserves(r: Ring, t: nat)
    requires Conserved(r) && t < |r.producers| && r.producers[t].Storing? && |r.slots| == r.size > 0
    ensures Conserved(StoreStep(r, t))
  {
    HeldUpdate(r.producers, t, Away);
    var place := SlotOf(r.size, Wrap(r.producers[t].ticket));
    if r.slots[place] == NullPtr {
      var cmd := r.producers[t].cmd;
      assert multiset(r.slots[place := Cmd(cmd)]) == multiset(r.slots) - multiset{NullPtr} + multiset{Cmd(cmd)};
      forall c: nat
        ensures multiset(r.slots[place := Cmd(cmd)])[Cmd(c)]
                == multiset(r.slots)[Cmd(c)] + (if c == cmd then 1 else 0) {}
    }
  }

  lemma ExchangeConserves(r: Ring)
    requires Conserved(r) && r.consumer.Claimed? && |r.slots| == r.size > 0
    ensures Conserved(ExchangeStep(r))
  {
    var place := SlotOf(r.size, r.consumer.word);
    var e := r.slots[place];
    if e != NullPtr {
      assert multiset(r.slots[place := NullPtr]) == multiset(r.slots) - multiset{e} + multiset{NullPtr};
      assert multiset(r.answers + [e]) == multiset(r.answers) + multiset{e};
    }
  }

  lemma NextConserves(r: Ring, a: Action)
    requires Conserved(r) && Enabled(r, a) && |r.slots| == r.size > 0
    ensures Conserved(Next(r, a))
  {
    match a
    case FetchAdd(t, cmd) => FetchAddConserves(r, t, cmd);
    case Store(t) => StoreConserves(r, t);
    case LoadTail =>
    case LoadHead => assert multiset(r.answers + [NullPtr]) == multiset(r.answers) + multiset{NullPtr};
    case CasTail =>
    case Exchange => ExchangeConserves(r);
  }

  /** In every run, however far the producers overrun the ring, the pushed commands are exactly
      those taken, those in slots and those still held. */
  lemma {:induction false} CommandsConserved(rs: seq<Ring>, acts: seq<Action>, exponent: nat, threads: nat)
    requires IsRun(rs, acts, exponent, threads)
    ensures Conserved(rs[|acts|])
    decreases |acts|
  {
    if acts == [] {
      AllNull(rs[0].slots);
      AllNull(Held(rs[0].producers));
    } else {
      var n := |acts| - 1;
      CommandsConserved(rs[..n + 1], acts[..n], exponent, threads);
      NextConserves(rs[n], acts[n]);
    }
  }

  lemma {:induction false} AllNull(s: seq<Element>)
    requires forall i :: 0 <= i < |s| ==> s[i] == NullPtr
    ensures forall c: nat :: multiset(s)[Cmd(c)] == 0
  {
    forall c: nat ensures multiset(s)[Cmd(c)] == 0 { assert Cmd(c) !in s; }
  }
}
