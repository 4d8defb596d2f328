/** The request pool as the code keeps it: fixed-size arrays and an intrusive free list.  Every atomic action does
    to `head` and `nexts` what FreeList's step does to the state. */
module RequestPool {
  import opened FreeList
  import Engine

  class RequestPool {
    const size: nat
    const nexts: array<nat>
    const done: array<bool>
    const statuses: array<Engine.Status>
    const requests: array<Engine.Request>
    var head: nat
    var used: seq<nat>
    ghost var pool: Pool

    ghost predicate Valid()
      reads this, nexts
    {
      && 1 <= size <= INVALID
      && nexts.Length == done.Length == statuses.Length == requests.Length == size && nexts != statuses
      && pool.size == size && |pool.place| == size && pool.head == head && pool.nexts == nexts[..]
    }

    /** Slots size - 1, ..., 1 are released in this order; slot 0 is never put on the list. */
    constructor (size: nat, ghost threads: nat)
      requires 1 <= size <= INVALID
      ensures Valid() && this.size == size && fresh(nexts) && fresh(done) && fresh(statuses) && fresh(requests)
      ensures pool == Initial(size, threads) && used == []
      ensures forall i :: 0 <= i < size ==> !done[i]
    {
      this.size := size;
      nexts := new nat[size](_ => 0);
      done := new bool[size](_ => false);
      statuses := new Engine.Status[size](_ => 0);
      requests := new Engine.Request[size](_ => Engine.Null);
      head, used := INVALID, [];
      pool := Building(size, threads, size);
      new;
      assert nexts[..] == pool.nexts;
      var i := size - 1;
      while i != 0
        invariant 0 <= i < size && Valid() && pool == Building(size, threads, i + 1)
        invariant used == [] && forall k :: 0 <= k < size ==> !done[k]
      {
        BuildingStep(size, threads, i);
        nexts[i] := head;
        head := i;
        pool := Building(size, threads, i);
        i := i - 1;
      }
      BuildingEnds(size, threads);
    }

    method ReleaseLoad(ghost t: nat) returns (seen: nat)
      requires Valid() && Enabled(pool, LoadHead(t))
      modifies this`pool
      ensures Valid() && pool == LoadHeadStep(old(pool), t)
      ensures seen == head && pool.releasers[t] == ToLink(old(pool.releasers[t].idx), seen)
    {
      seen := head;
      pool := LoadHeadStep(pool, t);
    }

    method ReleaseLink(ghost t: nat, idx: nat, seen: nat)
      requires Valid() && t < |pool.releasers| && pool.releasers[t] == ToLink(idx, seen) && idx < size
      modifies this`pool, nexts
      ensures Valid() && pool == LinkStep(old(pool), t)
    {
      ghost var before := nexts[..];
      nexts[idx] := seen;
      assert nexts[..] == before[idx := seen];
      pool := LinkStep(pool, t);
    }

    /** head_.compare_exchange_weak(nexts_[idx], idx); `spurious` is the weak exchange failing for no reason. */
    method ReleaseSwap(ghost t: nat, idx: nat, spurious: bool) returns (released: bool, seen: nat)
      requires Valid() && t < |pool.releasers| && pool.releasers[t] == ToSwap(idx) && idx < size
      modifies this
      ensures Valid() && used == old(used) && pool == SwapInStep(old(pool), t, spurious)
      ensures if released then pool.releasers[t].Resting? else pool.releasers[t] == ToLink(idx, seen)
    {
      released, seen := !spurious && head == nexts[idx], head;
      if released {
        head := idx;
      }
      pool := SwapInStep(pool, t, spurious);
    }

    method AcquireLoad() returns (seen: nat)
      requires Valid() && Enabled(pool, FreeList.AcquireLoad)
      modifies this`pool
      ensures Valid() && pool == AcquireLoadStep(old(pool)) && pool.acquirer == HaveHead(seen)
    {
      seen := head;
      pool := AcquireLoadStep(pool);
    }

    method AcquireNext(seen: nat) returns (next: nat)
      requires Valid() && pool.acquirer == HaveHead(seen) && seen < size
      modifies this`pool
      ensures Valid() && pool == AcquireNextStep(old(pool)) && pool.acquirer == HaveNext(seen, next)
    {
      next := nexts[seen];
      pool := AcquireNextStep(pool);
    }

    method AcquireSwap(seen: nat, next: nat, spurious: bool) returns (acquired: bool, observed: nat)
      requires Valid() && pool.acquirer == HaveNext(seen, next) && seen < size
      modifies this
      ensures Valid() && pool == AcquireSwapStep(old(pool), spurious)
      ensures if acquired then pool.acquirer.Asleep? && used == [seen] + old(used)
              else pool.acquirer == HaveHead(observed) && used == old(used)
    {
      acquired, observed := !spurious && head == seen, head;
      if acquired {
        head := next;
        used := [seen] + used;
      }
      pool := AcquireSwapStep(pool, spurious);
    }

    /** release as a whole, when no other thread interferes: the slot becomes the first of the chain. */
    method Release(ghost t: nat, idx: nat)
      requires Valid() && Inv(pool) && Enabled(pool, BeginRelease(t, idx))
      modifies this, nexts
      ensures Valid() && Inv(pool) && pool.stack == old(pool.stack) + [idx] && head == idx && used == old(used)
    {
      BeginReleaseKeeps(pool, t, idx);
      pool := BeginReleaseStep(pool, t, idx);
      ghost var stack := pool.stack;
      LoadHeadKeeps(pool, t);
      var seen := ReleaseLoad(t);
      LinkKeeps(pool, t);
      ReleaseLink(t, idx, seen);
      SwapInKeeps(pool, t, false);
      var released, observed := ReleaseSwap(t, idx, false);
    }

    /** acquire as a whole, when no other thread interferes: the first slot of the chain, or INVALID. */
    method Acquire() returns (idx: nat)
      requires Valid() && Inv(pool) && pool.acquirer.Asleep?
      modifies this
      ensures Valid() && Inv(pool) && pool.acquirer.Asleep?
      ensures if old(pool.stack) == [] then idx == INVALID && pool.stack == [] && used == [INVALID] + old(used)
              else old(pool.stack) == pool.stack + [idx] && used == [idx] + old(used) && pool.place[idx] == Out
    {
      AcquireAlone(pool);
      pool := BeginAcquireStep(pool);
      idx := AcquireLoad();
      if idx == INVALID {
        pool := AcquireFailStep(pool);
        used := [INVALID] + used;
        return;
      }
      Take(idx);
    }

    /** The compare-exchange of an undisturbed acquire. */
    method Take(idx: nat)
      requires Valid() && pool.acquirer == HaveHead(idx) && idx < size && head == idx && |pool.stack| > 0
      modifies this
      ensures Valid() && used == [idx] + old(used)
      ensures pool == AcquireSwapStep(AcquireNextStep(old(pool)), false)
    {
      var next := AcquireNext(idx);
      var acquired, observed := AcquireSwap(idx, next, false);
    }
  }

  /** The state in which an undisturbed acquire meets its compare-exchange. */
  function BeforeSwap(p: Pool): Pool
  {
    p.(acquirer := HaveNext(p.head, if p.head < |p.nexts| then p.nexts[p.head] else 0))
  }

  /** An undisturbed acquire takes the first slot, or fails on an empty list. */
  lemma AcquireAlone(p: Pool)
    requires Inv(p) && p.acquirer.Asleep?
    ensures p.stack == [] <==> p.head == INVALID
    ensures p.stack == [] ==> Inv(AcquireFailStep(AcquireLoadStep(BeginAcquireStep(p))))
    ensures p.stack != [] ==>
              && p.head < p.size && Enabled(BeforeSwap(p), FreeList.AcquireSwap(false))
              && var p' := AcquireSwapStep(BeforeSwap(p), false);
                 Inv(p') && p'.acquirer.Asleep? && p.stack == p'.stack + [p.head] && p'.place[p.head] == Out
  {
    if p.stack != [] {
      assert p.head < p.size;
      BeforeSwapInv(p);
      AcquireSwapKeeps(BeforeSwap(p), false);
    }
  }

  lemma BeforeSwapInv(p: Pool)
    requires Inv(p) && p.stack != [] && p.head < p.size
    ensures Inv(BeforeSwap(p))
  {
    assert p.place[p.stack[|p.stack| - 1]] == Free(|p.stack| - 1);
  }

  /** The pool after the constructor has released slots size - 1 down to first. */
  ghost function Building(size: nat, threads: nat, first: nat): Pool
    requires 1 <= first <= size <= INVALID
  {
    Pool(size, if first == size then INVALID else first,
         seq(size, i requires 0 <= i < size => if i < first then 0 else if i + 1 == size then INVALID else i + 1),
         seq(threads, _ => Resting), Asleep,
         seq(size - first, i requires 0 <= i < size - first => size - 1 - i),
         seq(size, i requires 0 <= i < size => if i == 0 then Never else if i < first then Out else Free(size - 1 - i)))
  }

  lemma BuildingStep(size: nat, threads: nat, i: nat)
    requires 1 <= i < size <= INVALID
    ensures var p, p' := Building(size, threads, i + 1), Building(size, threads, i);
            p'.nexts == p.nexts[i := p.head] && p'.head == i && p'.stack == p.stack + [i]
              && p'.place == p.place[i := Free(|p.stack|)]
  {
  }

  lemma BuildingEnds(size: nat, threads: nat)
    requires 1 <= size <= INVALID
    ensures Building(size, threads, 1) == Initial(size, threads)
  {
  }
}
