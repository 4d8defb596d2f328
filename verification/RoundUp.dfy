/** Rounding up to a power of two by the shift-or cascade, for a word of any power-of-two width. */
module RoundUp {
  import opened Words

  function Decrement(width: nat, x: nat): nat
  {
    (x + Pow2(width) - 1) % Pow2(width)
  }

  function Increment(width: nat, x: nat): nat
  {
    (x + 1) % Pow2(width)
  }

  function OrEqual(x: nat, u: nat): nat
  {
    Or(x, ShiftRight(x, u))
  }

  /** The variadic form: one step for each shift in `shifts`. */
  function OrEqualAll(x: nat, shifts: seq<nat>): nat
    decreases |shifts|
  {
    if shifts == [] then x else OrEqualAll(OrEqual(x, shifts[0]), shifts[1..])
  }

  function RoundUp(width: nat, shifts: seq<nat>, a: nat): nat
  {
    Increment(width, OrEqualAll(Decrement(width, a), shifts))
  }

  function RoundUp32(a: nat): nat
  {
    RoundUp(32, [1, 2, 4, 8, 16], a)
  }

  function RoundUp64(a: nat): nat
  {
    RoundUp(64, [1, 2, 4, 8, 16, 32], a)
  }

  /** n is the top bit of x and the `run` bits from it downwards are ones. */
  ghost predicate TopRun(x: nat, n: nat, run: nat)
  {
    && (forall i: nat :: i > n ==> !Bit(x, i))
    && (forall i: nat :: i <= n < i + run ==> Bit(x, i))
  }

  /** One step doubles the run of ones below the top bit. */
  lemma OrEqualDoublesRun(x: nat, n: nat, run: nat)
    requires TopRun(x, n, run)
    ensures TopRun(OrEqual(x, run), n, 2 * run)
  {
    forall i: nat | i > n ensures !Bit(OrEqual(x, run), i) { OrEqualBit(x, run, i); }
    forall i: nat | i <= n < i + 2 * run ensures Bit(OrEqual(x, run), i) { OrEqualBit(x, run, i); }
  }

  lemma OrEqualBit(x: nat, u: nat, i: nat)
    ensures Bit(OrEqual(x, u), i) == (Bit(x, i) || Bit(x, i + u))
  {
    OrBit(x, ShiftRight(x, u), i);
    ShiftRightBit(x, u, i);
  }

  /** The shifts run, 2*run, 4*run, ... */
  ghost predicate Doubling(shifts: seq<nat>, run: nat)
  {
    shifts != [] ==> shifts[0] == run && Doubling(shifts[1..], 2 * run)
  }

  lemma {:induction false} CascadeRun(x: nat, n: nat, run: nat, shifts: seq<nat>)
    requires TopRun(x, n, run) && Doubling(shifts, run)
    ensures TopRun(OrEqualAll(x, shifts), n, run * Pow2(|shifts|))
    decreases |shifts|
  {
    if shifts != [] {
      OrEqualDoublesRun(x, n, run);
      CascadeRun(OrEqual(x, run), n, 2 * run, shifts[1..]);
      assert run * (2 * Pow2(|shifts| - 1)) == 2 * run * Pow2(|shifts| - 1);
    }
  }

  lemma {:induction false} CascadeZero(shifts: seq<nat>)
    ensures OrEqualAll(0, shifts) == 0
    decreases |shifts|
  {
    if shifts != [] {
      forall i: nat ensures Bit(OrEqual(0, shifts[0]), i) == Bit(0, i) {
        OrEqualBit(0, shifts[0], i);
        ZeroBit(i);
        ZeroBit(i + shifts[0]);
      }
      SameBits(OrEqual(0, shifts[0]), 0);
      CascadeZero(shifts[1..]);
    }
  }

  /** Every positive number lies between two neighbouring powers of two. */
  lemma {:induction false} TopBitExists(x: nat) returns (n: nat)
    requires x > 0
    ensures Pow2(n) <= x < Pow2(n + 1)
  {
    if x == 1 { n := 0; } else {
      n := TopBitExists(x / 2);
      n := n + 1;
    }
  }

  lemma {:induction false} TopBitSet(x: nat, n: nat)
    requires Pow2(n) <= x < Pow2(n + 1)
    ensures Bit(x, n)
  {
    if n > 0 { TopBitSet(x / 2, n - 1); }
  }

  /** A cascade of k doublings fills every bit below the top one of any word of at most 2^k bits. */
  lemma CascadeFills(x: nat, n: nat, shifts: seq<nat>)
    requires Pow2(n) <= x < Pow2(n + 1) && n < Pow2(|shifts|)
    requires Doubling(shifts, 1)
    ensures OrEqualAll(x, shifts) == Pow2(n + 1) - 1
  {
    TopBitSet(x, n);
    forall i: nat | i > n ensures !Bit(x, i) { HighBitsClear(x, n + 1, i); }
    CascadeRun(x, n, 1, shifts);
    forall i: nat ensures Bit(OrEqualAll(x, shifts), i) == Bit(Pow2(n + 1) - 1, i) { MaskBit(n + 1, i); }
    SameBits(OrEqualAll(x, shifts), Pow2(n + 1) - 1);
  }

  ghost predicate LeastPow2AtLeast(r: nat, a: nat)
  {
    && r >= a
    && (exists k: nat :: r == Pow2(k))
    && (forall k: nat :: Pow2(k) >= a ==> r <= Pow2(k))
  }

  /** The cascade in a word of `width` = 2^k bits: the least power of two at least a exactly
      when that power fits in the word, and 0 for every other word. */
  lemma RoundUpIsLeast(width: nat, a: nat, shifts: seq<nat>)
    requires Doubling(shifts, 1) && width == Pow2(|shifts|) && a < Pow2(width)
    ensures var r := RoundUp(width, shifts, a);
            if 1 <= a <= Pow2(width - 1) then LeastPow2AtLeast(r, a) && r < Pow2(width) else r == 0
  {
    var w := Pow2(width);
    var d := Decrement(width, a);
    var r := Increment(width, OrEqualAll(d, shifts));
    if a == 0 { ModSmall(w - 1, w); } else { ModUnique(a + w - 1, w, 1, a - 1); }
    if d == 0 {
      CascadeZero(shifts);
      Pow2Monotone(1, width);
      ModSmall(1, w);
      assert r == Pow2(0);
    } else {
      var n := TopBitExists(d);
      if n >= width { Pow2Monotone(width, n); }
      CascadeFills(d, n, shifts);
      if n + 1 == width {
        ModUnique(w, w, 1, 0);
      } else {
        Pow2Monotone(n + 2, width);
        ModSmall(Pow2(n + 1), w);
        forall k: nat | Pow2(k) >= a ensures Pow2(n + 1) <= Pow2(k) {
          if k <= n { Pow2Monotone(k, n); } else { Pow2Monotone(n + 1, k); }
        }
      }
      RoundUpBranch(width, a, n);
    }
  }

  /** The top bit of a - 1 decides which side of the overflow boundary a is on. */
  lemma RoundUpBranch(width: nat, a: nat, n: nat)
    requires width >= 1 && n < width
    requires a == 0 ==> n + 1 == width
    requires a > 0 ==> Pow2(n) <= a - 1 < Pow2(n + 1)
    ensures (1 <= a <= Pow2(width - 1)) <==> n + 1 < width
  {
    if n + 1 < width { Pow2Monotone(n + 1, width - 1); }
  }

  /** The two overloads are cascades of the right length for their words. */
  lemma CascadeLengths()
    ensures Doubling([1, 2, 4, 8, 16], 1) && Pow2(5) == 32
    ensures Doubling([1, 2, 4, 8, 16, 32], 1) && Pow2(6) == 64
  {
    var s: seq<nat> := [1, 2, 4, 8, 16, 32];
    var t: seq<nat> := [1, 2, 4, 8, 16];
    assert s[1..][1..] == [4, 8, 16, 32] && t[1..][1..] == [4, 8, 16];
    assert s[1..][1..][1..][1..] == [16, 32] && t[1..][1..][1..][1..] == [16];
    assert Doubling(t[1..][1..][1..][1..], 16) && Doubling(s[1..][1..][1..][1..], 16);
    assert Doubling(t[1..][1..], 4) && Doubling(s[1..][1..], 4);
  }

  lemma RoundUp32IsLeast(width: nat, a: nat)
    requires width == 32 && a < Pow2(width)
    ensures if 1 <= a <= Pow2(width - 1) then LeastPow2AtLeast(RoundUp32(a), a) else RoundUp32(a) == 0
  {
    CascadeLengths();
    RoundUpIsLeast(width, a, [1, 2, 4, 8, 16]);
  }

  lemma RoundUp64IsLeast(width: nat, a: nat)
    requires width == 64 && a < Pow2(width)
    ensures if 1 <= a <= Pow2(width - 1) then LeastPow2AtLeast(RoundUp64(a), a) else RoundUp64(a) == 0
  {
    CascadeLengths();
    RoundUpIsLeast(width, a, [1, 2, 4, 8, 16, 32]);
  }

  const MAX_CAPACITY: nat := 0x8000_0000

  lemma MaxCapacityIsPow2()
    ensures MAX_CAPACITY == Pow2(31)
  {
    Pow2Sum(8, 8);
    Pow2Sum(16, 15);
    assert Pow2(8) == 256 && Pow2(7) == 128;
    Pow2Sum(8, 7);
  }

  /** The size the ring chooses for a capacity is a power of two that holds it and does not exceed the limit. */
  lemma RingExponent(capacity: nat) returns (exponent: nat)
    requires 1 <= capacity <= MAX_CAPACITY
    ensures RoundUp32(capacity) == Pow2(exponent) && capacity <= Pow2(exponent) && exponent <= 31
  {
    MaxCapacityIsPow2();
    RoundUp32IsLeast(32, capacity);
    AtMost(RoundUp32(capacity), capacity, 31);
    exponent :| RoundUp32(capacity) == Pow2(exponent);
    if exponent > 31 { Pow2Monotone(32, exponent); }
  }

  lemma AtMost(r: nat, a: nat, limit: nat)
    requires LeastPow2AtLeast(r, a) && a <= Pow2(limit)
    ensures r <= Pow2(limit)
  {
  }
}
