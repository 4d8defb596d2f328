/** The one client bound: it keeps the ring's tickets within its size and the free list non-empty. */
module EngineBound {
  import FreeList
  import RingFifo
  import Ring
  import opened Engine
  import opened EngineInv

  /** A set mapped injectively into another is no larger. */
  lemma {:induction false} InjectionCount(a: set<nat>, f: map<nat, nat>, b: set<nat>)
    requires forall x :: x in a ==> x in f && f[x] in b
    requires forall x, y :: x in a && y in a && x != y ==> f[x] != f[y]
    ensures |a| <= |b|
  {
    if a != {} {
      var x :| x in a;
      InjectionCount(a - {x}, f, b - {f[x]});
    }
  }

  function TicketSet(lo: nat, hi: nat): set<nat>
    requires lo <= hi
    decreases hi - lo
  {
    if lo == hi then {} else TicketSet(lo + 1, hi) + {lo}
  }

  lemma {:induction false} TicketSetIs(lo: nat, hi: nat)
    requires lo <= hi
    ensures |TicketSet(lo, hi)| == hi - lo && forall k :: k in TicketSet(lo, hi) <==> lo <= k < hi
    decreases hi - lo
  {
    if lo < hi { TicketSetIs(lo + 1, hi); }
  }

  /** A post that has not taken its ticket, and the queued ones, are distinct live requests. */
  lemma TicketsBounded(s: State, p: nat)
    requires Sizes(s) && QueueOk(s) && InHandOk(s) && LiveOk(s)
    requires 0 <= RingFifo.Taken(s.ring) <= |s.ring.log|
    requires p < |s.entry| && s.entry[p].Posting?
    ensures |s.ring.log| - RingFifo.Taken(s.ring) + 1 <= |s.live|
  {
    var lo, hi := RingFifo.Taken(s.ring), |s.ring.log|;
    var tickets := TicketSet(lo, hi);
    TicketSetIs(lo, hi);
    var f := map k | k in tickets :: s.ring.log[k].cmd;
    forall k | k in tickets ensures f[k] in s.live - {p} { assert s.entry[f[k]] == Queued(k); }
    forall j, k | j in tickets && k in tickets && j != k ensures f[j] != f[k] {
      assert s.entry[f[j]] == Queued(j) && s.entry[f[k]] == Queued(k);
    }
    assert p in s.live;
    InjectionCount(tickets, f, s.live - {p});
  }

  /** While a taken post waits for a slot, the others hold too few to exhaust the pool. */
  lemma SlotAvailable(s: State)
    requires Sizes(s) && FreeList.Inv(s.pool) && SlotsOk(s) && InHandOk(s) && LiveOk(s) && s.off.Acquiring?
    requires s.bound <= s.pool.size - 1
    ensures s.pool.stack != [] && s.pool.head != INVALID
  {
    var place, p := s.pool.place, s.off.post;
    var busy := FreeList.OutSlots(place) + FreeList.LeavingSlots(place);
    var f := map x | x in busy :: s.owner[x];
    forall x | x in busy ensures f[x] in s.live - {p} && HasSlot(s.stage[f[x]]) && s.stage[f[x]].slot == x {}
    assert p in s.live;
    InjectionCount(busy, f, s.live - {p});
    FreeList.SlotsPartitioned(s.pool);
    assert |busy| == |FreeList.OutSlots(place)| + |FreeList.LeavingSlots(place)|;
  }

  /** No ticket reaches a slot whose previous ticket is untaken. */
  lemma TicketFits(s: State, t: nat)
    requires Inv(s) && AppEnabled(s, PostTicket(t))
    ensures RingFifo.Bounded(Ring.FetchAddStep(s.ring, t, s.apps[t].post))
  {
    TicketsBounded(s, s.apps[t].post);
  }
}
