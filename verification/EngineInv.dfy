/** The engine's invariant, in parts.  Each part speaks only of the components it names, so that a step
    which leaves those components alone keeps it. */
module EngineInv {
  import FreeList
  import Ring
  import RingFifo
  import opened Engine

  ghost predicate Sizes(s: State)
  {
    && |s.entry| == |s.cell| == |s.nullRequest| == |s.thread| == |s.holder| == |s.wants| == |s.stored| == |s.stage|
    && |s.result| == |s.answers| == |s.writes| == |s.tests| == |s.stage|
    && |s.done| == |s.statuses| == |s.requests| == |s.owner| == s.pool.size
    && |s.cellOwner| == |s.cells|
    && |s.batches| == |s.apps| == |s.ring.producers| == |s.pool.releasers|
  }

  /** The tickets not yet taken are exactly the queued posts. */
  ghost predicate QueueInv(log: seq<Ring.Ticket>, taken: int, entry: seq<Entry>, thread: seq<nat>)
  {
    && |thread| == |entry|
    && (forall k :: 0 <= k < |log| ==>
          log[k].cmd < |entry| && thread[log[k].cmd] == log[k].thread && !entry[log[k].cmd].Posting?)
    && (forall k :: 0 <= taken <= k < |log| ==> entry[log[k].cmd] == Queued(k))
    && (forall p :: 0 <= p < |entry| && entry[p].Queued? ==>
          taken <= entry[p].ticket < |log| && log[entry[p].ticket].cmd == p)
  }

  /** Threads between their invalidation and their store. */
  ghost predicate PostingInv(apps: seq<AppPc>, producers: seq<Ring.Producer>, entry: seq<Entry>, thread: seq<nat>)
  {
    && |thread| == |entry| && |producers| == |apps|
    && (forall t :: 0 <= t < |apps| && apps[t].Invalidated? ==>
          apps[t].post < |entry| && entry[apps[t].post].Posting? && thread[apps[t].post] == t)
    && (forall p :: 0 <= p < |entry| && entry[p].Posting? ==>
          thread[p] < |apps| && apps[thread[p]] == Invalidated(p))
    && (forall t :: 0 <= t < |apps| ==> (producers[t].Storing? <==> apps[t].Enqueuing?))
    && (forall t :: 0 <= t < |apps| && apps[t].Enqueuing? ==> producers[t].cmd == apps[t].post)
  }

  /** Commands of one thread take their tickets in the order of its posts. */
  ghost predicate OrderInv(log: seq<Ring.Ticket>, apps: seq<AppPc>, posts: nat)
  {
    && (forall i, j :: 0 <= i < j < |log| && log[i].thread == log[j].thread ==> log[i].cmd < log[j].cmd)
    && (forall i :: 0 <= i < |log| ==> log[i].cmd < posts)
    && (forall t, i :: 0 <= t < |apps| && 0 <= i < |log| && apps[t].Invalidated? && log[i].thread == t ==>
          log[i].cmd < apps[t].post)
  }

  predicate HasSlot(g: Stage)
  {
    g.Fresh? || g.Published? || g.Complete? || g.Consumed?
  }

  /** A slot with an operation that has not been marked done. */
  predicate Unfinished(g: Stage)
  {
    g.Fresh? || g.Published?
  }

  /** Slots and requests: every slot handed out belongs to one request, every request with a slot owns it. */
  ghost predicate SlotInv(place: seq<FreeList.Place>, owner: seq<nat>, stage: seq<Stage>)
  {
    && |owner| == |place|
    && (forall p :: 0 <= p < |stage| && HasSlot(stage[p]) ==>
          && stage[p].slot < |place| && owner[stage[p].slot] == p
          && if stage[p].Consumed? then place[stage[p].slot].Leaving? else place[stage[p].slot].Out?)
    && (forall x :: 0 <= x < |place| && place[x].Out? ==>
          owner[x] < |stage| && HasSlot(stage[owner[x]]) && !stage[owner[x]].Consumed? && stage[owner[x]].slot == x)
    && (forall x :: 0 <= x < |place| && place[x].Leaving? ==>
          owner[x] < |stage| && stage[owner[x]] == Consumed(x))
  }

  /** done_ is set exactly for finished requests, and then the status is theirs. */
  ghost predicate FlagInv(done: seq<bool>, statuses: seq<Status>, owner: seq<nat>, stage: seq<Stage>)
  {
    && |done| == |statuses| == |owner|
    && (forall x :: 0 <= x < |done| ==>
          (done[x] <==> owner[x] < |stage| && stage[owner[x]].Complete? && stage[owner[x]].slot == x))
    && (forall x :: 0 <= x < |done| && done[x] ==> stage[owner[x]].status == statuses[x])
  }

  /** What the caller's cell shows while its request is outstanding. */
  function Shown(g: Stage): nat
  {
    if g.Published? || g.Complete? || g.Consumed? then g.slot else INVALID
  }

  ghost predicate CellInv(cells: seq<nat>, cellOwner: seq<Option<nat>>, cell: seq<nat>, stage: seq<Stage>)
  {
    && |cell| == |stage| && |cellOwner| == |cells|
    && (forall p :: 0 <= p < |stage| && !stage[p].Released? ==>
          cell[p] < |cells| && cellOwner[cell[p]] == Some(p) && cells[cell[p]] == Shown(stage[p]))
    && (forall c :: 0 <= c < |cellOwner| && cellOwner[c].Some? ==>
          var p := cellOwner[c].value; p < |stage| && !stage[p].Released? && cell[p] == c)
  }

  /** What a thread knows about the request it operates on. */
  ghost predicate Knows(a: AppPc, g: Stage, st: Option<Status>, wants: bool)
  {
    && (a.WaitCell? || a.TestCell? ==> !g.Consumed? && !g.Released?)
    && (a.WaitFlag? || a.TestFlag? ==> (g.Published? || g.Complete?) && g.slot == a.slot)
    && (a.WaitCopy? || a.TestCopy? || a.WaitClear? ==> g.Complete? && g.slot == a.slot)
    && (a.Releasing? ==> g == Consumed(a.slot))
    && (a.WaitCell? || a.WaitFlag? || a.WaitCopy? ==> a.ignore == !wants)
    && (a.WaitClear? || a.Releasing? ==> a.copied == if wants then st else None)
  }

  ghost predicate AppInv(apps: seq<AppPc>, holder: seq<Holder>, stage: seq<Stage>, stored: seq<Option<Status>>,
      wants: seq<bool>)
  {
    && |holder| == |stage| == |stored| == |wants|
    && (forall t :: 0 <= t < |apps| && Target(apps[t]).Some? ==>
          var p := apps[t].post;
          p < |stage| && holder[p] == InCall(t) && Knows(apps[t], stage[p], stored[p], wants[p]))
    && (forall p :: 0 <= p < |stage| && stage[p].Consumed? ==>
          holder[p].InCall? && holder[p].thread < |apps| && apps[holder[p].thread].Releasing?
            && apps[holder[p].thread].post == p)
  }

  /** The requests still ahead on a Waitall list are reserved for it and outstanding. */
  ghost predicate BatchInv(batches: seq<Batch>, holder: seq<Holder>, stage: seq<Stage>, wants: seq<bool>)
  {
    && |holder| == |stage| == |wants|
    && (forall t :: 0 <= t < |batches| ==> batches[t].next <= |batches[t].items|)
    && (forall t, i :: 0 <= t < |batches| && batches[t].next <= i < |batches[t].items| ==>
          var item := batches[t].items[i];
          item.post < |stage| && holder[item.post] == Listed(t, i) && item.ignore == !wants[item.post])
    && (forall p :: 0 <= p < |holder| && holder[p].Listed? ==> !stage[p].Consumed? && !stage[p].Released?)
  }

  ghost predicate ReleaserInv(apps: seq<AppPc>, releasers: seq<FreeList.Releaser>)
  {
    && |releasers| == |apps|
    && forall t :: 0 <= t < |apps| ==>
         (apps[t].Releasing? <==> !releasers[t].Resting?) && (apps[t].Releasing? ==> releasers[t].idx == apps[t].slot)
  }

  /** The offload thread's program counter against the ring, the free list and the posts. */
  ghost predicate OffloadInv(off: OffloadPc, consumer: Ring.Consumer, acquirer: FreeList.Acquirer)
  {
    && (!off.Dequeuing? ==> consumer.Quiet?)
    && (off.Acquiring? <==> !acquirer.Asleep?)
    && acquirer != FreeList.HaveHead(INVALID)
    && !off.Exhausted?
  }

  ghost predicate InHandInv(off: OffloadPc, entry: seq<Entry>, stage: seq<Stage>)
  {
    && |entry| == |stage|
    && (off.Acquiring? ==> off.post < |entry| && entry[off.post].Taken?)
    && (forall p :: 0 <= p < |entry| && entry[p].Taken? ==> off == Acquiring(p))
    && (forall p :: 0 <= p < |entry| ==> (entry[p].Past? <==> !stage[p].Waiting?))
    && ((off.Clearing? || off.Publishing?) ==> off.post < |stage| && stage[off.post] == Fresh(off.slot))
    && (forall p :: 0 <= p < |stage| && stage[p].Fresh? ==>
       off == Clearing(p, stage[p].slot) || off == Publishing(p, stage[p].slot))
    && ((off.Calling? || off.Testing? || off.Marking?) ==> off.post < |stage| && stage[off.post] == Published(off.slot))
  }

  ghost predicate Pending(x: nat, owner: seq<nat>, stage: seq<Stage>)
    requires x < |owner|
  {
    owner[x] < |stage| && Unfinished(stage[owner[x]]) && stage[owner[x]].slot == x
  }

  ghost predicate AtCursor(off: OffloadPc, used: seq<nat>, x: nat)
  {
    (off.SweepMark? || off.SweepErase?) && off.pos < |used| && used[off.pos] == x
  }

  ghost predicate BeingStarted(off: OffloadPc, x: nat)
  {
    (off.Clearing? || off.Publishing? || off.Calling? || off.Testing?) && off.slot == x
  }

  /** used_ has no duplicates and holds exactly the slots whose operation has not tested complete;
      only between marking and erasing may the slot at the cursor be finished already. */
  ghost predicate UsedInv(used: seq<nat>, off: OffloadPc, owner: seq<nat>, stage: seq<Stage>)
  {
    && FreeList.Distinct(used)
    && (forall x :: x in used ==>
       x < |owner| && (Pending(x, owner, stage) || (off.SweepErase? && AtCursor(off, used, x))))
    && (forall x :: 0 <= x < |owner| && Pending(x, owner, stage) ==> x in used || (off.Marking? && off.slot == x))
    && (off.Marking? ==> off.slot !in used)
    && ((off.SweepMark? || off.SweepErase?) ==> off.pos < |used|)
    && (off.SweepErase? ==> used[off.pos] < |owner| && !Pending(used[off.pos], owner, stage))
  }

  /** Requests on the list that have been called are handles of their own operation, never null. */
  ghost predicate RequestInv(requests: seq<Request>, used: seq<nat>, off: OffloadPc, owner: seq<nat>)
  {
    && |requests| == |owner|
    && (forall x :: x in used ==>
          x < |requests| && (requests[x] == Active(owner[x]) || BeingStarted(off, x) || AtCursor(off, used, x)))
    && (off.Testing? ==> off.slot < |requests| && (requests[off.slot].Null? || requests[off.slot] == Active(off.post)))
  }

  /** Pushing to the front, removing a value and erasing a position, on a list without duplicates. */
  lemma PushedList(l: seq<nat>, x: nat)
    requires FreeList.Distinct(l) && x !in l
    ensures FreeList.Distinct([x] + l) && forall y :: y in [x] + l <==> y == x || y in l
  {
  }

  lemma {:induction false} RemovedList(l: seq<nat>, x: nat)
    requires FreeList.Distinct(l)
    ensures FreeList.Distinct(Removed(l, x)) && forall y :: y in Removed(l, x) <==> y in l && y != x
  {
    if l != [] {
      assert l == [l[0]] + l[1..];
      assert forall i :: 1 <= i < |l| ==> l[1..][i - 1] == l[i];
      RemovedList(l[1..], x);
      if l[0] != x { PushedList(Removed(l[1..], x), l[0]); }
    }
  }

  lemma ErasedList(l: seq<nat>, i: nat)
    requires FreeList.Distinct(l) && i < |l|
    ensures FreeList.Distinct(Erased(l, i)) && forall y :: y in Erased(l, i) <==> y in l && y != l[i]
  {
    var e := Erased(l, i);
    forall y | y in l && y != l[i] ensures y in e {
      var j :| 0 <= j < |l| && l[j] == y;
      assert e[if j < i then j else j - 1] == y;
    }
    forall j | 0 <= j < |e| ensures e[j] == l[if j < i then j else j + 1] {}
  }

  /** The operation that has tested complete but whose flag is not set yet. */
  ghost predicate AwaitsMark(p: nat, off: OffloadPc, used: seq<nat>, owner: seq<nat>)
  {
    || (off.Marking? && off.post == p)
    || (off.SweepMark? && off.pos < |used| && used[off.pos] < |owner| && owner[used[off.pos]] == p)
  }

  predicate Finished(g: Stage)
  {
    g.Complete? || g.Consumed? || g.Released?
  }

  /** A status is stored once, when the operation tests complete, and is what the flag publishes and wait copies. */
  ghost predicate StoredInv(stored: seq<Option<Status>>, result: seq<Option<Status>>, stage: seq<Stage>,
      wants: seq<bool>)
  {
    && |stored| == |result| == |stage| == |wants|
    && (forall p :: 0 <= p < |stage| && Finished(stage[p]) ==> stored[p].Some?)
    && (forall p :: 0 <= p < |stage| && stage[p].Complete? ==> stored[p] == Some(stage[p].status))
    && (forall p :: 0 <= p < |stage| && stage[p].Released? ==>
          result[p] == if wants[p] then stored[p] else None)
    && (forall p :: 0 <= p < |stage| && !stage[p].Released? ==> result[p].None?)
  }

  ghost predicate MarkInv(stored: seq<Option<Status>>, statuses: seq<Status>, off: OffloadPc, used: seq<nat>,
      owner: seq<nat>, stage: seq<Stage>)
  {
    && |stored| == |stage|
    && (forall p :: 0 <= p < |stage| && stored[p].Some? ==> Finished(stage[p]) || AwaitsMark(p, off, used, owner))
    && (off.Marking? ==> off.post < |stored| && off.slot < |statuses| && stored[off.post] == Some(statuses[off.slot]))
    && (off.SweepMark? ==> off.pos < |used| && used[off.pos] < |statuses| && used[off.pos] < |owner|
                           && owner[used[off.pos]] < |stored|
                              && stored[owner[used[off.pos]]] == Some(statuses[used[off.pos]]))
  }

  ghost predicate LiveInv(live: set<nat>, stage: seq<Stage>, bound: nat)
  {
    && (forall p: nat :: p in live <==> p < |stage| && !stage[p].Released?)
    && |live| <= bound
  }

  /** test answers false until the request is finished and its stored status ever after. */
  ghost predicate Steady(answers: seq<TestAnswer>, g: Stage, st: Option<Status>)
  {
    && (forall i :: 0 <= i < |answers| && answers[i].Yes? ==>
          Finished(g) && (answers[i].copied.Some? ==> answers[i].copied == st))
    && (forall i, j :: 0 <= i < j < |answers| && answers[i].Yes? ==> answers[j].Yes?)
  }

  ghost predicate AnswerInv(answers: seq<seq<TestAnswer>>, stage: seq<Stage>, stored: seq<Option<Status>>)
  {
    && |answers| == |stage| == |stored|
    && forall p :: 0 <= p < |stage| ==> Steady(answers[p], stage[p], stored[p])
  }

  /** The engine writes a post's cell at most twice: the invalidation, then one valid slot. */
  ghost predicate WriteInv(writes: seq<seq<nat>>, stage: seq<Stage>, size: nat)
  {
    && |writes| == |stage|
    && forall p :: 0 <= p < |stage| ==>
         if stage[p].Waiting? || stage[p].Fresh? then writes[p] == [INVALID]
         else |writes[p]| == 2 && writes[p][0] == INVALID && 1 <= writes[p][1] < size
              && (!stage[p].Released? ==> writes[p][1] == stage[p].slot)
  }

  /** Commands are issued in ticket order; at most the newest taken one is still to be issued. */
  ghost predicate IssueInv(issued: seq<nat>, log: seq<Ring.Ticket>, taken: int, off: OffloadPc)
  {
    var waiting := off.Acquiring? || off.Clearing? || off.Publishing? || off.Calling?;
    && 0 <= taken <= |log| && |issued| == (if waiting then taken - 1 else taken)
    && (forall i :: 0 <= i < |issued| ==> issued[i] == log[i].cmd)
    && (waiting ==> off.post == log[taken - 1].cmd)
  }

  // Each part, of a whole state.

  ghost predicate QueueOk(s: State) { QueueInv(s.ring.log, RingFifo.Taken(s.ring), s.entry, s.thread) }
  ghost predicate PostingOk(s: State) { PostingInv(s.apps, s.ring.producers, s.entry, s.thread) }
  ghost predicate OrderOk(s: State) { OrderInv(s.ring.log, s.apps, |s.stage|) }
  ghost predicate SlotsOk(s: State) { SlotInv(s.pool.place, s.owner, s.stage) }
  ghost predicate FlagsOk(s: State) { FlagInv(s.done, s.statuses, s.owner, s.stage) }
  ghost predicate CellsOk(s: State) { CellInv(s.cells, s.cellOwner, s.cell, s.stage) }
  ghost predicate AppsOk(s: State) { AppInv(s.apps, s.holder, s.stage, s.stored, s.wants) }
  ghost predicate BatchesOk(s: State) { BatchInv(s.batches, s.holder, s.stage, s.wants) }
  ghost predicate ReleasersOk(s: State) { ReleaserInv(s.apps, s.pool.releasers) }
  ghost predicate OffloadOk(s: State) { OffloadInv(s.off, s.ring.consumer, s.pool.acquirer) }
  ghost predicate InHandOk(s: State) { InHandInv(s.off, s.entry, s.stage) }
  ghost predicate UsedOk(s: State) { UsedInv(s.used, s.off, s.owner, s.stage) }
  ghost predicate RequestsOk(s: State) { RequestInv(s.requests, s.used, s.off, s.owner) }
  ghost predicate StoredOk(s: State) { StoredInv(s.stored, s.result, s.stage, s.wants) }
  ghost predicate MarksOk(s: State) { MarkInv(s.stored, s.statuses, s.off, s.used, s.owner, s.stage) }
  ghost predicate LiveOk(s: State) { LiveInv(s.live, s.stage, s.bound) }
  ghost predicate AnswersOk(s: State) { AnswerInv(s.answers, s.stage, s.stored) }
  ghost predicate WritesOk(s: State) { WriteInv(s.writes, s.stage, s.pool.size) }
  ghost predicate IssuedOk(s: State) { IssueInv(s.issued, s.ring.log, RingFifo.Taken(s.ring), s.off) }

  /** The ring, the free list, and the client bound against both. */
  ghost predicate BaseOk(s: State)
  {
    Sizes(s) && RingFifo.Inv(s.ring) && FreeList.Inv(s.pool) && s.bound <= s.ring.size && s.bound < Ring.HALF
    && s.bound <= s.pool.size - 1
  }

  ghost predicate QueuePart(s: State)
  {
    QueueOk(s) && PostingOk(s) && OrderOk(s) && IssuedOk(s)
  }

  ghost predicate SlotPart(s: State)
  {
    SlotsOk(s) && FlagsOk(s) && CellsOk(s) && LiveOk(s) && WritesOk(s)
  }

  ghost predicate CallPart(s: State)
  {
    AppsOk(s) && BatchesOk(s) && ReleasersOk(s) && StoredOk(s) && AnswersOk(s)
  }

  ghost predicate OffloadPart(s: State)
  {
    OffloadOk(s) && InHandOk(s) && UsedOk(s) && RequestsOk(s) && MarksOk(s)
  }

  ghost predicate Inv(s: State)
  {
    BaseOk(s) && QueuePart(s) && SlotPart(s) && CallPart(s) && OffloadPart(s)
  }

  datatype Part = Base | Queue | Slots | Calls | Offload

  ghost predicate PartOk(s: State, part: Part)
  {
    match part
    case Base => BaseOk(s)
    case Queue => QueuePart(s)
    case Slots => SlotPart(s)
    case Calls => CallPart(s)
    case Offload => OffloadPart(s)
  }

  /** The same invariant for proofs that only pass it on: it is looked into by Open alone. */
  ghost predicate Sound(s: State)
  {
    forall part :: PartOk(s, part)
  }

  lemma Open(s: State)
    requires Sound(s)
    ensures Inv(s)
  {
    assert PartOk(s, Base) && PartOk(s, Queue) && PartOk(s, Slots) && PartOk(s, Calls) && PartOk(s, Offload);
  }

  lemma Close(s: State)
    requires Inv(s)
    ensures Sound(s)
  {
  }

  lemma InitialInv(s: State)
    requires Initial(s)
    ensures Inv(s)
  {
    RingFifo.InitialInv(s.ring.exponent, |s.apps|);
    FreeList.InitialInv(s.pool.size, |s.apps|);
    InitialParts(s);
    InitialCalls(s);
  }

  lemma InitialParts(s: State)
    requires Initial(s)
    ensures QueuePart(s) && SlotPart(s)
  {
  }

  lemma InitialCalls(s: State)
    requires Initial(s)
    ensures CallPart(s) && OffloadPart(s)
  {
  }
}
