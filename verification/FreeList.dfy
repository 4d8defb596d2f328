/** The request pool's free list: a chain threaded through `nexts` from `head`, pushed to by any number of
    releasing threads and popped by one acquirer, one atomic action per step.
    `stack` and `place` are history: the chain read from its INVALID end up to head, and the whereabouts of every
    slot. */
module FreeList {

  const INVALID: nat := 0xFFFF_FFFF

  datatype Place = Never | Free(height: nat) | Out | Leaving(thread: nat)

  /** Where a thread is inside release(idx). */
  datatype Releaser =
    | Resting
    | ToLoad(idx: nat)
    | ToLink(idx: nat, seen: nat)
    | ToSwap(idx: nat)

  /** Where the offload thread is inside acquire(). */
  datatype Acquirer =
    | Asleep
    | Starting
    | HaveHead(seen: nat)
    | HaveNext(seen: nat, next: nat)

  datatype Pool = Pool(
    size: nat,
    head: nat,
    nexts: seq<nat>,
    releasers: seq<Releaser>,
    acquirer: Acquirer,
    stack: seq<nat>,
    place: seq<Place>)

  datatype Action =
    | BeginRelease(thread: nat, idx: nat)
    | LoadHead(thread: nat)
    | Link(thread: nat)
    | SwapIn(thread: nat, spurious: bool)
    | BeginAcquire
    | AcquireLoad
    | AcquireNext
    | AcquireSwap(spurious: bool)
    | AcquireFail

  predicate Enabled(p: Pool, a: Action)
  {
    match a
    case BeginRelease(t, idx) => t < |p.releasers| && p.releasers[t].Resting? && idx < |p.place| && p.place[idx] == Out
    case LoadHead(t) => t < |p.releasers| && p.releasers[t].ToLoad?
    case Link(t) => t < |p.releasers| && p.releasers[t].ToLink? && p.releasers[t].idx < |p.nexts|
    case SwapIn(t, _) => t < |p.releasers| && p.releasers[t].ToSwap? && p.releasers[t].idx < |p.nexts|
      && |p.place| == |p.nexts|
    case BeginAcquire => p.acquirer.Asleep?
    case AcquireLoad => p.acquirer.Starting?
    case AcquireNext => p.acquirer.HaveHead? && p.acquirer.seen < |p.nexts|
    case AcquireSwap(_) => p.acquirer.HaveNext? && p.acquirer.seen < |p.place|
    case AcquireFail => p.acquirer == HaveHead(INVALID)
  }

  function BeginReleaseStep(p: Pool, t: nat, idx: nat): Pool
    requires Enabled(p, BeginRelease(t, idx))
  {
    p.(releasers := p.releasers[t := ToLoad(idx)], place := p.place[idx := Leaving(t)])
  }

  function LoadHeadStep(p: Pool, t: nat): Pool
    requires Enabled(p, LoadHead(t))
  {
    p.(releasers := p.releasers[t := ToLink(p.releasers[t].idx, p.head)])
  }

  function LinkStep(p: Pool, t: nat): Pool
    requires Enabled(p, Link(t))
  {
    var r := p.releasers[t];
    p.(nexts := p.nexts[r.idx := r.seen], releasers := p.releasers[t := ToSwap(r.idx)])
  }

  /** compare_exchange_weak(nexts[idx], idx): a failure leaves the observed head to be stored in nexts[idx]. */
  function SwapInStep(p: Pool, t: nat, spurious: bool): Pool
    requires Enabled(p, SwapIn(t, spurious))
  {
    var idx := p.releasers[t].idx;
    if spurious || p.head != p.nexts[idx] then p.(releasers := p.releasers[t := ToLink(idx, p.head)])
    else p.(head := idx, releasers := p.releasers[t := Resting], stack := p.stack + [idx],
            place := p.place[idx := Free(|p.stack|)])
  }

  function BeginAcquireStep(p: Pool): Pool
  {
    p.(acquirer := Starting)
  }

  function AcquireLoadStep(p: Pool): Pool
  {
    p.(acquirer := HaveHead(p.head))
  }

  function AcquireNextStep(p: Pool): Pool
    requires Enabled(p, AcquireNext)
  {
    p.(acquirer := HaveNext(p.acquirer.seen, p.nexts[p.acquirer.seen]))
  }

  /** compare_exchange_weak(old_head, nexts[old_head]); a failure reloads old_head. */
  function AcquireSwapStep(p: Pool, spurious: bool): Pool
    requires Enabled(p, AcquireSwap(spurious))
  {
    var seen := p.acquirer.seen;
    if spurious || p.head != seen then p.(acquirer := HaveHead(p.head))
    else p.(head := p.acquirer.next, acquirer := Asleep, stack := if p.stack == [] then []
      else p.stack[..|p.stack| - 1],
            place := p.place[seen := Out])
  }

  function AcquireFailStep(p: Pool): Pool
  {
    p.(acquirer := Asleep)
  }

  function Next(p: Pool, a: Action): Pool
    requires Enabled(p, a)
  {
    match a
    case BeginRelease(t, idx) => BeginReleaseStep(p, t, idx)
    case LoadHead(t) => LoadHeadStep(p, t)
    case Link(t) => LinkStep(p, t)
    case SwapIn(t, spurious) => SwapInStep(p, t, spurious)
    case BeginAcquire => BeginAcquireStep(p)
    case AcquireLoad => AcquireLoadStep(p)
    case AcquireNext => AcquireNextStep(p)
    case AcquireSwap(spurious) => AcquireSwapStep(p, spurious)
    case AcquireFail => AcquireFailStep(p)
  }

  // ---------------------------------------------------------------- the invariant

  /** What lies on top of the first n slots of the stack. */
  function Top(stack: seq<nat>, n: nat): nat
    requires n <= |stack|
  {
    if n == 0 then INVALID else stack[n - 1]
  }

  /** Following `nexts` from `head` visits exactly the stack, from its top to its bottom, and ends at INVALID. */
  ghost predicate IsChain(head: nat, nexts: seq<nat>, stack: seq<nat>)
  {
    && head == Top(stack, |stack|)
    && (forall i :: 0 <= i < |stack| ==> stack[i] < |nexts|)
    && (forall i {:trigger nexts[stack[i]]} :: 0 <= i < |stack| ==> nexts[stack[i]] == Top(stack, i))
  }

  ghost predicate Distinct(s: seq<nat>)
  {
    forall i, j :: 0 <= i < j < |s| ==> s[i] != s[j]
  }

  ghost predicate ChainInv(p: Pool)
  {
    && 1 <= p.size <= INVALID && |p.nexts| == |p.place| == p.size
    && IsChain(p.head, p.nexts, p.stack)
    && (forall i :: 0 <= i < |p.stack| ==> p.place[p.stack[i]] == Free(i))
    && (forall s :: 0 <= s < p.size && p.place[s].Free? ==>
       p.place[s].height < |p.stack| && p.stack[p.place[s].height] == s)
  }

  ghost predicate PlaceInv(p: Pool)
  {
    && 1 <= p.size <= INVALID && |p.nexts| == |p.place| == p.size
    && (forall s :: 0 <= s < p.size ==> (p.place[s].Never? <==> s == 0))
    && (forall s :: 0 <= s < p.size && p.place[s].Leaving? ==>
          var t := p.place[s].thread; t < |p.releasers| && !p.releasers[t].Resting? && p.releasers[t].idx == s)
    && (forall t :: 0 <= t < |p.releasers| && !p.releasers[t].Resting? ==>
          p.releasers[t].idx < p.size && p.place[p.releasers[t].idx] == Leaving(t))
  }

  /** With one acquirer, a head it has read stays on the chain with its successor unchanged. */
  ghost predicate AcquirerInv(p: Pool)
  {
    match p.acquirer
    case Asleep => true
    case Starting => true
    case HaveHead(seen) => seen == INVALID || (seen < |p.place| && p.place[seen].Free?)
    case HaveNext(seen, next) => seen < |p.place| && p.place[seen].Free? && seen < |p.nexts| && p.nexts[seen] == next
  }

  ghost predicate Inv(p: Pool)
  {
    ChainInv(p) && PlaceInv(p) && AcquirerInv(p)
  }

  /** The chain is determined by the memory: no other sequence is visited from head. */
  lemma {:induction false} ChainUnique(head: nat, nexts: seq<nat>, c: seq<nat>, d: seq<nat>)
    requires |nexts| <= INVALID
    requires IsChain(head, nexts, c) && IsChain(head, nexts, d)
    ensures c == d
    decreases |c|
  {
    if c != [] && d != [] {
      var m, n := |c| - 1, |d| - 1;
      ChainUnique(nexts[head], nexts, c[..m], d[..n]);
      assert c == c[..m] + [c[m]] && d == d[..n] + [d[n]];
    }
  }

  lemma BeginReleaseKeeps(p: Pool, t: nat, idx: nat)
    requires Inv(p) && Enabled(p, BeginRelease(t, idx))
    ensures Inv(BeginReleaseStep(p, t, idx))
  {
  }

  lemma LoadHeadKeeps(p: Pool, t: nat)
    requires Inv(p) && Enabled(p, LoadHead(t))
    ensures Inv(LoadHeadStep(p, t))
  {
  }

  /** Writing the successor of a slot that is leaving touches no slot of the chain. */
  lemma LinkKeeps(p: Pool, t: nat)
    requires Inv(p) && Enabled(p, Link(t))
    ensures Inv(LinkStep(p, t)) && LinkStep(p, t).stack == p.stack
  {
    assert p.place[p.releasers[t].idx] == Leaving(t);
  }

  /** A successful release puts its slot on top of the whole chain. */
  lemma SwapInKeeps(p: Pool, t: nat, spurious: bool)
    requires Inv(p) && Enabled(p, SwapIn(t, spurious))
    ensures var p' := SwapInStep(p, t, spurious);
            Inv(p') && if p'.releasers[t].Resting? then p'.stack == p.stack + [p.releasers[t].idx]
              else p'.stack == p.stack
  {
    SwapInPlaces(p, t, spurious);
    SwapInChain(p, t, spurious);
  }

  /** A compare-exchange of release that fails has loaded the head that the next one needs: undisturbed, one more store
      of the successor and one more compare-exchange end the release. */
  lemma ReleaseRetries(p: Pool, t: nat, spurious: bool)
    requires Inv(p) && Enabled(p, SwapIn(t, spurious))
    ensures var idx, p1 := p.releasers[t].idx, SwapInStep(p, t, spurious);
            !p1.releasers[t].Resting? ==>
              && Enabled(p1, Link(t))
              && var p2 := LinkStep(p1, t);
                 && Enabled(p2, SwapIn(t, false))
                 && var p3 := SwapInStep(p2, t, false);
                    p3.releasers[t].Resting? && p3.head == idx && p3.stack == p.stack + [idx]
  {
  }

  /** A release that has loaded the head and is left alone needs no retry. */
  lemma ReleaseAlone(p: Pool, t: nat)
    requires Inv(p) && Enabled(p, LoadHead(t))
    ensures var idx, p1 := p.releasers[t].idx, LoadHeadStep(p, t);
            && Enabled(p1, Link(t))
            && var p2 := LinkStep(p1, t);
               && Enabled(p2, SwapIn(t, false))
               && var p3 := SwapInStep(p2, t, false);
                  p3.releasers[t].Resting? && p3.head == idx && p3.stack == p.stack + [idx]
  {
  }

  lemma SwapInPlaces(p: Pool, t: nat, spurious: bool)
    requires PlaceInv(p) && Enabled(p, SwapIn(t, spurious))
    ensures PlaceInv(SwapInStep(p, t, spurious))
    ensures p.place[p.releasers[t].idx] == Leaving(t)
  {
  }

  lemma SwapInChain(p: Pool, t: nat, spurious: bool)
    requires ChainInv(p) && Enabled(p, SwapIn(t, spurious)) && p.place[p.releasers[t].idx] == Leaving(t)
    ensures ChainInv(SwapInStep(p, t, spurious))
  {
  }

  lemma AcquireStepsKeep(p: Pool, a: Action)
    requires Inv(p) && Enabled(p, a) && (a.BeginAcquire? || a.AcquireLoad? || a.AcquireNext? || a.AcquireFail?)
    ensures Inv(Next(p, a))
  {
  }

  /** No ABA: a successful compare-exchange removes exactly the first slot and leaves exactly the old tail. */
  lemma AcquireSwapKeeps(p: Pool, spurious: bool)
    requires Inv(p) && Enabled(p, AcquireSwap(spurious))
    ensures var p' := AcquireSwapStep(p, spurious);
            && Inv(p')
            && if !spurious && p.head == p.acquirer.seen
               then p.stack == p'.stack + [p.acquirer.seen] && p'.place[p.acquirer.seen] == Out && p'.acquirer.Asleep?
               else p'.stack == p.stack && p'.acquirer == HaveHead(p.head)
  {
    if !spurious && p.head == p.acquirer.seen {
      AcquireChain(p);
      AcquirePlaces(p);
    } else {
      AcquireRetries(p, spurious);
    }
  }

  /** Likewise acquire: after a failed compare-exchange one more look at the successor and one more compare-exchange
      take the slot that is first by then; an empty list is reported. */
  lemma AcquireRetriesOnce(p: Pool, spurious: bool)
    requires Inv(p) && Enabled(p, AcquireSwap(spurious))
    ensures var p1 := AcquireSwapStep(p, spurious);
            !p1.acquirer.Asleep? ==>
              if p.stack == [] then Enabled(p1, AcquireFail)
              else
                && Enabled(p1, AcquireNext)
                && var p2 := AcquireNextStep(p1);
                   && Enabled(p2, AcquireSwap(false))
                   && var p3 := AcquireSwapStep(p2, false);
                      p3.acquirer.Asleep? && p.stack == p3.stack + [p.head]
  {
    if p.stack != [] { assert p.stack[|p.stack| - 1] == p.head; }
  }

  lemma AcquirePlaces(p: Pool)
    requires PlaceInv(p) && AcquirerInv(p) && Enabled(p, AcquireSwap(false)) && p.head == p.acquirer.seen
    ensures PlaceInv(AcquireSwapStep(p, false)) && AcquirerInv(AcquireSwapStep(p, false))
  {
  }

  lemma AcquireRetries(p: Pool, spurious: bool)
    requires Inv(p) && Enabled(p, AcquireSwap(spurious)) && (spurious || p.head != p.acquirer.seen)
    ensures Inv(AcquireSwapStep(p, spurious)) && AcquireSwapStep(p, spurious) == p.(acquirer := HaveHead(p.head))
  {
  }

  lemma AcquireChain(p: Pool)
    requires ChainInv(p) && AcquirerInv(p) && Enabled(p, AcquireSwap(false)) && p.head == p.acquirer.seen
    ensures ChainInv(AcquireSwapStep(p, false))
    ensures p.stack == AcquireSwapStep(p, false).stack + [p.acquirer.seen]
  {
    var n, seen := |p.stack| - 1, p.acquirer.seen;
    assert p.place[seen].height == n && p.stack[n] == seen;
    PoppedChain(p.head, p.nexts, p.stack);
    PoppedPlaces(p.stack, p.place, seen);
  }

  lemma PoppedChain(head: nat, nexts: seq<nat>, stack: seq<nat>)
    requires IsChain(head, nexts, stack) && stack != []
    ensures IsChain(nexts[head], nexts, stack[..|stack| - 1])
    ensures stack == stack[..|stack| - 1] + [head]
  {
  }

  lemma PoppedPlaces(stack: seq<nat>, place: seq<Place>, seen: nat)
    requires seen < |place| && stack != [] && stack[|stack| - 1] == seen
    requires forall i :: 0 <= i < |stack| ==> stack[i] < |place| && place[stack[i]] == Free(i)
    requires forall s :: 0 <= s < |place| && place[s].Free? ==> place[s].height < |stack| && stack[place[s].height] == s
    ensures var stack', place' := stack[..|stack| - 1], place[seen := Out];
            && (forall i :: 0 <= i < |stack'| ==> place'[stack'[i]] == Free(i))
            && (forall s :: 0 <= s < |place'| && place'[s].Free? ==>
               place'[s].height < |stack'| && stack'[place'[s].height] == s)
  {
  }

  lemma NextKeeps(p: Pool, a: Action)
    requires Inv(p) && Enabled(p, a)
    ensures Inv(Next(p, a))
  {
    match a
    case BeginRelease(t, idx) => BeginReleaseKeeps(p, t, idx);
    case LoadHead(t) => LoadHeadKeeps(p, t);
    case Link(t) => LinkKeeps(p, t);
    case SwapIn(t, spurious) => SwapInKeeps(p, t, spurious);
    case AcquireSwap(spurious) => AcquireSwapKeeps(p, spurious);
    case _ => AcquireStepsKeep(p, a);
  }

  // ---------------------------------------------------------------- runs and conservation

  /** What the constructor builds: slots 1, 2, ..., size - 1 in this order; slot 0 is never put on the list. */
  function Initial(size: nat, threads: nat): Pool
    requires 1 <= size <= INVALID
  {
    Pool(size, if size == 1 then INVALID else 1,
         seq(size, i requires 0 <= i < size => if i == 0 then 0 else if i + 1 == size then INVALID else i + 1),
         seq(threads, _ => Resting), Asleep,
         seq(size - 1, i requires 0 <= i < size - 1 => size - 1 - i),
         seq(size, i requires 0 <= i < size => if i == 0 then Never else Free(size - 1 - i)))
  }

  lemma InitialInv(size: nat, threads: nat)
    requires 1 <= size <= INVALID
    ensures Inv(Initial(size, threads))
  {
  }

  ghost predicate IsRun(ps: seq<Pool>, acts: seq<Action>, size: nat, threads: nat)
    requires 1 <= size <= INVALID
  {
    && |ps| == |acts| + 1 && ps[0] == Initial(size, threads)
    && forall i :: 0 <= i < |acts| ==> Enabled(ps[i], acts[i]) && ps[i + 1] == Next(ps[i], acts[i])
  }

  function Slots(size: nat): set<nat>
  {
    if size <= 1 then {} else Slots(size - 1) + {size - 1}
  }

  lemma {:induction false} SlotsAre(size: nat, s: nat)
    ensures s in Slots(size) <==> 1 <= s < size
  {
    if size > 1 { SlotsAre(size - 1, s); }
  }

  function OutSlots(place: seq<Place>): set<nat>
  {
    set s: nat | s < |place| && place[s].Out?
  }

  /** The slots that threads in the middle of release hold, one per thread. */
  function LeavingSlots(place: seq<Place>): set<nat>
  {
    set s: nat | s < |place| && place[s].Leaving?
  }

  function Elements(s: seq<nat>): set<nat>
  {
    set i: nat | i < |s| :: s[i]
  }

  lemma {:induction false} DistinctCount(s: seq<nat>)
    requires Distinct(s)
    ensures |Elements(s)| == |s|
    decreases |s|
  {
    if s != [] {
      var n := |s| - 1;
      DistinctCount(s[..n]);
      assert Elements(s) == Elements(s[..n]) + {s[n]};
      assert s[n] !in Elements(s[..n]);
    }
  }

  lemma {:induction false} SlotsCount(size: nat)
    requires size >= 1
    ensures |Slots(size)| == size - 1
  {
    if size > 1 {
      SlotsCount(size - 1);
      SlotsAre(size - 1, size - 1);
    }
  }

  /** Slots 1 .. size - 1 are partitioned between the free chain, the slots handed out and the slots being released. */
  lemma SlotsPartitioned(p: Pool)
    requires Inv(p)
    ensures Elements(p.stack) + OutSlots(p.place) + LeavingSlots(p.place) == Slots(p.size)
    ensures Elements(p.stack) !! OutSlots(p.place) !! LeavingSlots(p.place)
    ensures |p.stack| + |OutSlots(p.place)| + |LeavingSlots(p.place)| == p.size - 1
  {
    SlotsCovered(p);
    StackDistinct(p);
    DistinctCount(p.stack);
    SlotsCount(p.size);
    ThreeWayCount(Elements(p.stack), OutSlots(p.place), LeavingSlots(p.place), Slots(p.size));
  }

  /** acquire can meet an empty list exactly when all size - 1 slots are handed out or being released. */
  lemma EmptyExactly(p: Pool)
    requires Inv(p)
    ensures p.head == INVALID <==> |OutSlots(p.place)| + |LeavingSlots(p.place)| == p.size - 1
  {
    SlotsPartitioned(p);
  }

  lemma SlotsCovered(p: Pool)
    requires Inv(p)
    ensures Elements(p.stack) + OutSlots(p.place) + LeavingSlots(p.place) == Slots(p.size)
    ensures Elements(p.stack) !! OutSlots(p.place) !! LeavingSlots(p.place)
  {
    var free, out, leaving := Elements(p.stack), OutSlots(p.place), LeavingSlots(p.place);
    forall s: nat ensures s in free + out + leaving <==> s in Slots(p.size) {
      SlotsAre(p.size, s);
      ChainedSlots(p, s);
    }
    forall s: nat | s in free ensures s !in out && s !in leaving { ChainedSlots(p, s); }
  }

  lemma ThreeWayCount(a: set<nat>, b: set<nat>, c: set<nat>, all: set<nat>)
    requires a !! b !! c && a + b + c == all
    ensures |a| + |b| + |c| == |all|
  {
    assert |a + b| == |a| + |b|;
    assert |(a + b) + c| == |a + b| + |c|;
  }

  lemma ChainedSlots(p: Pool, s: nat)
    requires Inv(p)
    ensures s in Elements(p.stack) <==> s < p.size && p.place[s].Free?
  {
    if s < p.size && p.place[s].Free? { assert p.stack[p.place[s].height] == s; }
  }

  lemma StackDistinct(p: Pool)
    requires Inv(p)
    ensures Distinct(p.stack)
  {
    forall i, j | 0 <= i < j < |p.stack| ensures p.stack[i] != p.stack[j] {
      assert p.place[p.stack[i]] == Free(i) && p.place[p.stack[j]] == Free(j);
    }
  }

  lemma {:induction false} RunKeepsInv(ps: seq<Pool>, acts: seq<Action>, size: nat, threads: nat)
    requires 1 <= size <= INVALID && IsRun(ps, acts, size, threads)
    ensures Inv(ps[|acts|]) && ps[|acts|].size == size
    decreases |acts|
  {
    if acts == [] {
      InitialInv(size, threads);
    } else {
      var n := |acts| - 1;
      RunKeepsInv(ps[..n + 1], acts[..n], size, threads);
      NextKeeps(ps[n], acts[n]);
    }
  }

  /** In every run: the chain from head is acyclic, duplicate-free and ends at INVALID, it never contains slot 0,
      and no slot is lost or shared. */
  lemma ListAlwaysSound(ps: seq<Pool>, acts: seq<Action>, size: nat, threads: nat)
    requires 1 <= size <= INVALID && IsRun(ps, acts, size, threads)
    ensures var p := ps[|acts|];
            && IsChain(p.head, p.nexts, p.stack) && Distinct(p.stack) && 0 !in p.stack
            && |p.stack| + |OutSlots(p.place)| + |LeavingSlots(p.place)| == size - 1
  {
    RunKeepsInv(ps, acts, size, threads);
    SlotsPartitioned(ps[|acts|]);
    StackDistinct(ps[|acts|]);
    forall i | 0 <= i < |ps[|acts|].stack| ensures ps[|acts|].stack[i] != 0 {
      assert ps[|acts|].place[ps[|acts|].stack[i]] == Free(i);
    }
  }
}
