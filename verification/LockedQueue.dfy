/** The mutex-protected queue: the plain FIFO the lock-free ring is measured against. */
module LockedQueue {

  /** A pointer to an offload command; commands are told apart by an identity. */
  datatype Element = NullPtr | Cmd(id: nat)

  function Enqueued(q: seq<Element>, elem: Element): seq<Element>
  {
    q + [elem]
  }

  /** What a dequeue answers and what it leaves behind. */
  function Dequeued(q: seq<Element>): (Element, seq<Element>)
  {
    if q == [] then (NullPtr, q) else (q[0], q[1..])
  }

  datatype Op = Enqueue(elem: Element) | Dequeue

  /** The queue and the answers after a sequence of operations on an empty queue. */
  function Replay(ops: seq<Op>): (seq<Element>, seq<Element>)
  {
    if ops == [] then ([], [])
    else
      var (q, answers) := Replay(ops[..|ops| - 1]);
      match ops[|ops| - 1]
      case Enqueue(elem) => (Enqueued(q, elem), answers)
      case Dequeue => var (x, rest) := Dequeued(q); (rest, answers + [x])
  }

  lemma ReplayAppend(ops: seq<Op>, op: Op)
    ensures var (q, answers) := Replay(ops);
            Replay(ops + [op]) == match op
                                  case Enqueue(elem) => (Enqueued(q, elem), answers)
                                  case Dequeue => (Dequeued(q).1, answers + [Dequeued(q).0])
  {
    assert (ops + [op])[..|ops + [op]| - 1] == ops;
  }

  /** The elements enqueued by `ops`, oldest first. */
  function Inputs(ops: seq<Op>): seq<Element>
  {
    if ops == [] then []
    else Inputs(ops[..|ops| - 1]) + (match ops[|ops| - 1] case Enqueue(elem) => [elem] case Dequeue => [])
  }

  /** The answers that carried an element, in order. */
  function Delivered(answers: seq<Element>): seq<Element>
  {
    if answers == [] then []
    else Delivered(answers[..|answers| - 1]) + (if answers[|answers| - 1].Cmd? then [answers[|answers| - 1]] else [])
  }

  lemma DeliveredAppend(answers: seq<Element>, x: Element)
    ensures Delivered(answers + [x]) == Delivered(answers) + if x.Cmd? then [x] else []
  {
    assert (answers + [x])[..|answers + [x]| - 1] == answers;
  }

  /** First in, first out: what was delivered followed by what is still queued is what was enqueued. */
  lemma {:induction false} ReplayIsFifo(ops: seq<Op>)
    requires forall i :: 0 <= i < |ops| && ops[i].Enqueue? ==> ops[i].elem.Cmd?
    ensures var (q, answers) := Replay(ops);
            Delivered(answers) + q == Inputs(ops) && (forall i :: 0 <= i < |q| ==> q[i].Cmd?)
  {
    if ops != [] {
      var front, op := ops[..|ops| - 1], ops[|ops| - 1];
      ReplayIsFifo(front);
      var (q, answers) := Replay(front);
      if op.Dequeue? { DequeueIsFifo(q, answers, Inputs(front)); }
        else { EnqueueIsFifo(q, answers, Inputs(front), op.elem); }
    }
  }

  lemma EnqueueIsFifo(q: seq<Element>, answers: seq<Element>, inputs: seq<Element>, elem: Element)
    requires Delivered(answers) + q == inputs
    ensures Delivered(answers) + Enqueued(q, elem) == inputs + [elem]
  {
    assert Delivered(answers) + (q + [elem]) == (Delivered(answers) + q) + [elem];
  }

  lemma DequeueIsFifo(q: seq<Element>, answers: seq<Element>, inputs: seq<Element>)
    requires Delivered(answers) + q == inputs && forall i :: 0 <= i < |q| ==> q[i].Cmd?
    ensures Delivered(answers + [Dequeued(q).0]) + Dequeued(q).1 == inputs
  {
    DeliveredAppend(answers, Dequeued(q).0);
    if q != [] { MoveFirst(Delivered(answers), q); } else { assert Delivered(answers) + [] == Delivered(answers); }
  }

  lemma MoveFirst(a: seq<Element>, q: seq<Element>)
    requires q != []
    ensures (a + [q[0]]) + q[1..] == a + q
  {
  }

  class LockedQueue {
    var q: seq<Element>

    constructor ()
      ensures q == []
    {
      q := [];
    }

    method Enqueue(elem: Element)
      modifies this
      ensures q == Enqueued(old(q), elem)
    {
      q := q + [elem];
    }

    method Dequeue() returns (value: Element)
      modifies this
      ensures (value, q) == Dequeued(old(q))
    {
      if |q| == 0 {
        return NullPtr;
      }
      value := q[0];
      q := q[1..];
    }
  }
}
