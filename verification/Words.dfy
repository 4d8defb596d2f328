/** Unsigned machine words as naturals.  Bits are read off by halving, so that every
    bitwise operator is a recursion on its arguments and facts about it are proved bit by bit. */
module Words {

  function Pow2(n: nat): (r: nat)
    ensures r > 0
  {
    if n == 0 then 1 else 2 * Pow2(n - 1)
  }

  /** Bit i of x, counted from the least significant one. */
  predicate Bit(x: nat, i: nat)
  {
    if i == 0 then x % 2 == 1 else Bit(x / 2, i - 1)
  }

  function Or(x: nat, y: nat): nat
  {
    if x == 0 && y == 0 then 0
    else (if x % 2 == 1 || y % 2 == 1 then 1 else 0) + 2 * Or(x / 2, y / 2)
  }

  function Xor(x: nat, y: nat): nat
  {
    if x == 0 && y == 0 then 0
    else (if x % 2 != y % 2 then 1 else 0) + 2 * Xor(x / 2, y / 2)
  }

  function And(x: nat, y: nat): nat
  {
    if x == 0 || y == 0 then 0
    else (if x % 2 == 1 && y % 2 == 1 then 1 else 0) + 2 * And(x / 2, y / 2)
  }

  function ShiftRight(x: nat, k: nat): nat
  {
    if k == 0 then x else ShiftRight(x / 2, k - 1)
  }

  /** The low k bits of x. */
  function Low(x: nat, k: nat): nat
  {
    if k == 0 then 0 else x % 2 + 2 * Low(x / 2, k - 1)
  }

  /** Shift left in a word of `width` bits: what leaves the word is dropped. */
  function ShiftLeft(width: nat, x: nat, k: nat): nat
  {
    Low(x * Pow2(k), width)
  }

  lemma LastBit(x: nat, bit: nat, rest: nat)
    requires bit < 2 && x == bit + 2 * rest
    ensures x / 2 == rest && x % 2 == bit
  {
  }

  lemma {:induction false} OrBit(x: nat, y: nat, i: nat)
    ensures Bit(Or(x, y), i) == (Bit(x, i) || Bit(y, i))
  {
    ZeroBit(i);
    if x > 0 || y > 0 { LastBit(Or(x, y), if x % 2 == 1 || y % 2 == 1 then 1 else 0, Or(x / 2, y / 2)); }
    if i > 0 { OrBit(x / 2, y / 2, i - 1); }
  }

  lemma {:induction false} XorBit(x: nat, y: nat, i: nat)
    ensures Bit(Xor(x, y), i) == (Bit(x, i) != Bit(y, i))
  {
    ZeroBit(i);
    if x > 0 || y > 0 { LastBit(Xor(x, y), if x % 2 != y % 2 then 1 else 0, Xor(x / 2, y / 2)); }
    if i > 0 { XorBit(x / 2, y / 2, i - 1); }
  }

  lemma {:induction false} AndBit(x: nat, y: nat, i: nat)
    ensures Bit(And(x, y), i) == (Bit(x, i) && Bit(y, i))
  {
    ZeroBit(i);
    if x > 0 && y > 0 { LastBit(And(x, y), if x % 2 == 1 && y % 2 == 1 then 1 else 0, And(x / 2, y / 2)); }
    if i > 0 { AndBit(x / 2, y / 2, i - 1); }
  }

  lemma {:induction false} ZeroBit(i: nat)
    ensures !Bit(0, i)
  {
    if i > 0 { ZeroBit(i - 1); }
  }

  lemma {:induction false} ShiftRightBit(x: nat, k: nat, i: nat)
    ensures Bit(ShiftRight(x, k), i) == Bit(x, i + k)
  {
    if k > 0 { ShiftRightBit(x / 2, k - 1, i); }
  }

  lemma {:induction false} LowBit(x: nat, k: nat, i: nat)
    ensures Bit(Low(x, k), i) == (i < k && Bit(x, i))
  {
    if k == 0 { ZeroBit(i); } else if i > 0 { LowBit(x / 2, k - 1, i - 1); }
  }

  lemma {:induction false} TimesPow2Bit(x: nat, k: nat, i: nat)
    ensures Bit(x * Pow2(k), i) == (i >= k && Bit(x, i - k))
  {
    if k > 0 {
      Reassociate(x, 2, Pow2(k - 1));
      Doubled(x * Pow2(k), x * Pow2(k - 1), i);
      if i > 0 { TimesPow2Bit(x, k - 1, i - 1); }
    }
  }

  lemma Doubled(x: nat, half: nat, i: nat)
    requires x == 2 * half
    ensures Bit(x, i) == (i > 0 && Bit(half, i - 1))
  {
  }

  lemma {:induction false} ShiftLeftBit(width: nat, x: nat, k: nat, i: nat)
    ensures Bit(ShiftLeft(width, x, k), i) == (k <= i < width && Bit(x, i - k))
  {
    LowBit(x * Pow2(k), width, i);
    TimesPow2Bit(x, k, i);
  }

  /** 2^k - 1 has exactly the bits below k. */
  lemma {:induction false} MaskBit(k: nat, i: nat)
    ensures Bit(Pow2(k) - 1, i) == (i < k)
  {
    if k == 0 { ZeroBit(i); } else {
      assert (Pow2(k) - 1) / 2 == Pow2(k - 1) - 1 && (Pow2(k) - 1) % 2 == 1;
      if i > 0 { MaskBit(k - 1, i - 1); }
    }
  }

  /** A word is determined by its bits. */
  lemma {:induction false} SameBits(x: nat, y: nat)
    requires forall i: nat :: Bit(x, i) == Bit(y, i)
    ensures x == y
    decreases x + y
  {
    if x + y > 0 {
      forall i: nat ensures Bit(x / 2, i) == Bit(y / 2, i) {
        assert Bit(x, i + 1) == Bit(y, i + 1);
      }
      assert Bit(x, 0) == Bit(y, 0);
      SameBits(x / 2, y / 2);
    }
  }

  /** Below 2^k exactly when no bit at or above k is set. */
  lemma {:induction false} BelowPow2(x: nat, k: nat)
    ensures x < Pow2(k) <==> (forall i: nat :: i >= k ==> !Bit(x, i))
  {
    if x < Pow2(k) {
      forall i: nat | i >= k ensures !Bit(x, i) { HighBitsClear(x, k, i); }
    } else {
      HighBitSet(x, k);
    }
  }

  lemma {:induction false} HighBitsClear(x: nat, k: nat, i: nat)
    requires x < Pow2(k) && i >= k
    ensures !Bit(x, i)
  {
    if k == 0 { ZeroBit(i); } else { HighBitsClear(x / 2, k - 1, i - 1); }
  }

  lemma {:induction false} HighBitSet(x: nat, k: nat)
    requires x >= Pow2(k)
    ensures exists i: nat :: i >= k && Bit(x, i)
  {
    if k > 0 {
      HighBitSet(x / 2, k - 1);
      var i: nat :| i >= k - 1 && Bit(x / 2, i);
      assert Bit(x, i + 1);
    } else if x % 2 == 1 {
      assert Bit(x, 0);
    } else {
      HighBitSet(x / 2, k);
      var i: nat :| i >= k && Bit(x / 2, i);
      assert Bit(x, i + 1);
    }
  }

  lemma {:induction false} LowIsMod(x: nat, k: nat)
    ensures Low(x, k) == x % Pow2(k)
  {
    if k > 0 {
      LowIsMod(x / 2, k - 1);
      HalveFirst(x, Pow2(k - 1));
    }
  }

  lemma {:induction false} ShiftRightIsDiv(x: nat, k: nat)
    ensures ShiftRight(x, k) == x / Pow2(k)
  {
    if k > 0 {
      ShiftRightIsDiv(x / 2, k - 1);
      HalveFirst(x, Pow2(k - 1));
    }
  }

  /** Dividing by 2 * p is halving and then dividing by p. */
  lemma HalveFirst(x: nat, p: nat)
    requires p > 0
    ensures x / (2 * p) == (x / 2) / p && x % (2 * p) == x % 2 + 2 * ((x / 2) % p)
  {
    var h := x / 2;
    var q, r := DivMod(h, p);
    Reassociate(q, 2, p);
    ModUnique(x, 2 * p, q, x % 2 + 2 * r);
  }

  /** Euclid's equation. */
  lemma DivMod(x: int, d: int) returns (q: int, r: int)
    requires d > 0
    ensures q == x / d && r == x % d && x == q * d + r && 0 <= r < d
  {
    q, r := x / d, x % d;
  }

  lemma Reassociate(a: int, b: int, c: int)
    ensures a * (b * c) == (a * b) * c == b * (a * c)
  {
  }

  lemma Distribute(a: int, b: int, d: int)
    ensures (a + b) * d == a * d + b * d && (a - b) * d == a * d - b * d
  {
  }

  /** Quotient and remainder are determined by the equation they satisfy. */
  lemma ModUnique(x: int, d: int, q: int, r: int)
    requires d > 0 && 0 <= r < d && x == q * d + r
    ensures x % d == r && x / d == q
  {
    var q', r' := DivMod(x, d);
    Distribute(q', q, d);
    Distribute(q, q', d);
    if q' > q { AtLeast(q' - q, d); }
    if q' < q { AtLeast(q - q', d); }
  }

  lemma ModSmall(x: int, d: int)
    requires 0 <= x < d
    ensures x % d == x
  {
    ModUnique(x, d, 0, x);
  }

  lemma AtLeast(k: int, d: int)
    requires k >= 1 && d >= 1
    ensures k * d >= d
  {
    Distribute(k - 1, 1, d);
  }

  lemma {:induction false} Pow2Sum(a: nat, b: nat)
    ensures Pow2(a + b) == Pow2(a) * Pow2(b)
  {
    if a > 0 {
      Pow2Sum(a - 1, b);
      Reassociate(2, Pow2(a - 1), Pow2(b));
      assert Pow2(a + b) == 2 * Pow2(a - 1 + b);
    }
  }

  lemma {:induction false} Pow2Monotone(a: nat, b: nat)
    requires a <= b
    ensures Pow2(a) <= Pow2(b)
  {
    if a < b { Pow2Monotone(a, b - 1); }
  }

  /** Reducing modulo a multiple of d first does not change the remainder modulo d. */
  lemma ModOfMod(x: int, d: int, m: int)
    requires d > 0 && m > 0
    ensures (x % (d * m)) % d == x % d
  {
    var w := d * m;
    AtLeast(m, d);
    Reassociate(1, m, d);
    var q, r := DivMod(x, w);
    var a, b := DivMod(r, d);
    Reassociate(q, m, d);
    Distribute(q * m, a, d);
    ModUnique(x, d, q * m + a, b);
  }
}
