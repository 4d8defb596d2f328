/** Index remapping of the ring: swapping the two lowest `bits`-wide fields of an index puts
    subsequent indices on different cache lines. */
module IndexMap {
  import opened Words

  const UNSIGNED_BITS: nat := 32

  function CacheLineIndexBits(elementsPerCacheLine: nat): nat
  {
    if elementsPerCacheLine == 64 then 6
    else if elementsPerCacheLine == 32 then 5
    else if elementsPerCacheLine == 16 then 4
    else if elementsPerCacheLine == 8 then 3
    else if elementsPerCacheLine == 4 then 2
    else if elementsPerCacheLine == 2 then 1
    else 0
  }

  function IndexShuffleBits(minimizeContention: bool, arraySize: nat, elementsPerCacheLine: nat): nat
  {
    var bits := CacheLineIndexBits(elementsPerCacheLine);
    if !minimizeContention || arraySize < ShiftLeft(UNSIGNED_BITS, 1, bits * 2) then 0 else bits
  }

  function RemapIndexWithMix(bits: nat, index: nat, mix: nat): nat
  {
    Xor(Xor(index, mix), ShiftLeft(UNSIGNED_BITS, mix, bits))
  }

  function RemapIndex(bits: nat, index: nat): nat
    requires bits < UNSIGNED_BITS
  {
    ShiftedOne(UNSIGNED_BITS, bits);
    if bits == 0 then index
    else RemapIndexWithMix(bits, index, And(Xor(index, ShiftRight(index, bits)), ShiftLeft(UNSIGNED_BITS, 1, bits) - 1))
  }

  /** Where bit i of a remapped index comes from: the two low fields trade places. */
  function SwappedBit(bits: nat, i: nat): nat
  {
    if i < bits then i + bits else if i < 2 * bits then i - bits else i
  }

  lemma ShiftedOne(width: nat, bits: nat)
    requires bits < width
    ensures ShiftLeft(width, 1, bits) == Pow2(bits)
  {
    Pow2Monotone(bits + 1, width);
    ModSmall(Pow2(bits), Pow2(width));
    LowIsMod(Pow2(bits), width);
  }

  /** The remapped index is the index with its two lowest `bits`-wide fields swapped. */
  lemma RemapSwapsFields(bits: nat, index: nat, i: nat)
    requires 2 * bits <= UNSIGNED_BITS
    ensures Bit(RemapIndex(bits, index), i) == Bit(index, SwappedBit(bits, i))
  {
    if bits > 0 {
      ShiftedOne(UNSIGNED_BITS, bits);
      var both := Xor(index, ShiftRight(index, bits));
      var mix := And(both, Pow2(bits) - 1);
      RemapMixBit(bits, index, i);
      if i >= bits { RemapMixBit(bits, index, i - bits); }
      XorBit(Xor(index, mix), ShiftLeft(UNSIGNED_BITS, mix, bits), i);
      XorBit(index, mix, i);
      ShiftLeftBit(UNSIGNED_BITS, mix, bits, i);
    }
  }

  lemma RemapMixBit(bits: nat, index: nat, i: nat)
    ensures Bit(And(Xor(index, ShiftRight(index, bits)), Pow2(bits) - 1), i)
            == (i < bits && Bit(index, i) != Bit(index, i + bits))
  {
    AndBit(Xor(index, ShiftRight(index, bits)), Pow2(bits) - 1, i);
    MaskBit(bits, i);
    XorBit(index, ShiftRight(index, bits), i);
    ShiftRightBit(index, bits, i);
  }

  lemma RemapInvolution(bits: nat, index: nat)
    requires 2 * bits <= UNSIGNED_BITS
    ensures RemapIndex(bits, RemapIndex(bits, index)) == index
  {
    forall i: nat ensures Bit(RemapIndex(bits, RemapIndex(bits, index)), i) == Bit(index, i) {
      RemapSwapsFields(bits, RemapIndex(bits, index), i);
      RemapSwapsFields(bits, index, SwappedBit(bits, i));
    }
    SameBits(RemapIndex(bits, RemapIndex(bits, index)), index);
  }

  /** A ring of 2^exponent elements stays inside its array. */
  lemma RemapInRange(bits: nat, exponent: nat, index: nat)
    requires 2 * bits <= exponent <= UNSIGNED_BITS
    requires index < Pow2(exponent)
    ensures RemapIndex(bits, index) < Pow2(exponent)
  {
    forall i: nat | i >= exponent ensures !Bit(RemapIndex(bits, index), i) {
      RemapSwapsFields(bits, index, i);
      HighBitsClear(index, exponent, i);
    }
    BelowPow2(RemapIndex(bits, index), exponent);
  }

  /** The remapping permutes [0, size): distinct indices keep distinct places and every place is reached. */
  lemma RemapPermutation(bits: nat, exponent: nat, i: nat, j: nat)
    requires 2 * bits <= exponent <= UNSIGNED_BITS
    requires i < Pow2(exponent) && j < Pow2(exponent)
    ensures RemapIndex(bits, i) == RemapIndex(bits, j) <==> i == j
    ensures RemapIndex(bits, i) < Pow2(exponent)
    ensures exists k: nat :: k < Pow2(exponent) && RemapIndex(bits, k) == j
  {
    RemapInvolution(bits, i);
    RemapInvolution(bits, j);
    RemapInRange(bits, exponent, i);
    RemapInRange(bits, exponent, j);
    assert RemapIndex(bits, RemapIndex(bits, j)) == j;
  }

  /** The cache line an index is mapped to: lines hold 2^bits elements. */
  function CacheLine(bits: nat, index: nat): nat
    requires 2 * bits <= UNSIGNED_BITS
  {
    ShiftRight(RemapIndex(bits, index), bits)
  }

  lemma CacheLineIsQuotient(bits: nat, index: nat)
    requires 2 * bits <= UNSIGNED_BITS
    ensures CacheLine(bits, index) == RemapIndex(bits, index) / Pow2(bits)
  {
    ShiftRightIsDiv(RemapIndex(bits, index), bits);
  }

  /** The cache line, within its block of 2^bits lines, is the old position inside the line. */
  lemma RemapCacheLine(bits: nat, index: nat)
    requires 2 * bits <= UNSIGNED_BITS
    ensures CacheLine(bits, index) % Pow2(bits) == index % Pow2(bits)
  {
    var line := CacheLine(bits, index);
    forall i: nat ensures Bit(Low(line, bits), i) == Bit(Low(index, bits), i) {
      LowBit(line, bits, i);
      LowBit(index, bits, i);
      ShiftRightBit(RemapIndex(bits, index), bits, i);
      RemapSwapsFields(bits, index, i + bits);
    }
    SameBits(Low(line, bits), Low(index, bits));
    LowIsMod(line, bits);
    LowIsMod(index, bits);
  }

  lemma CyclicLow(bits: nat, exponent: nat, x: nat)
    requires bits <= exponent
    ensures (x % Pow2(exponent)) % Pow2(bits) == x % Pow2(bits)
  {
    Pow2Sum(bits, exponent - bits);
    ModOfMod(x, Pow2(bits), Pow2(exponent - bits));
  }

  /** Any 2^bits cyclically consecutive indices land on pairwise different cache lines. */
  lemma RemapSpreadsCacheLines(bits: nat, exponent: nat, start: nat, i: nat, j: nat)
    requires 2 * bits <= exponent <= UNSIGNED_BITS
    requires i < j < Pow2(bits)
    ensures CacheLine(bits, (start + i) % Pow2(exponent)) != CacheLine(bits, (start + j) % Pow2(exponent))
  {
    DistinctLow(bits, exponent, start + i, start + j);
    LinesDiffer(bits, (start + i) % Pow2(exponent), (start + j) % Pow2(exponent));
  }

  lemma DistinctLow(bits: nat, exponent: nat, x: nat, y: nat)
    requires bits <= exponent && x < y < x + Pow2(bits)
    ensures (x % Pow2(exponent)) % Pow2(bits) != (y % Pow2(exponent)) % Pow2(bits)
  {
    CyclicLow(bits, exponent, x);
    CyclicLow(bits, exponent, y);
    DistinctResidues(x, y, Pow2(bits));
  }

  lemma LinesDiffer(bits: nat, u: nat, v: nat)
    requires 2 * bits <= UNSIGNED_BITS && u % Pow2(bits) != v % Pow2(bits)
    ensures CacheLine(bits, u) != CacheLine(bits, v)
  {
    RemapCacheLine(bits, u);
    RemapCacheLine(bits, v);
  }

  lemma DistinctResidues(x: int, y: int, d: int)
    requires x < y < x + d
    ensures x % d != y % d
  {
    var q, r := DivMod(x, d);
    if r + (y - x) < d {
      ModUnique(y, d, q, r + (y - x));
    } else {
      Distribute(q, 1, d);
      ModUnique(y, d, q + 1, r + (y - x) - d);
    }
  }

  /** The shuffle width the ring chooses always fits its array, so every ring index is remapped by a permutation. */
  lemma ShuffleBitsFit(exponent: nat, elementsPerCacheLine: nat)
    requires exponent <= UNSIGNED_BITS
    ensures 2 * IndexShuffleBits(true, Pow2(exponent), elementsPerCacheLine) <= exponent
  {
    var bits := CacheLineIndexBits(elementsPerCacheLine);
    ShiftedOne(UNSIGNED_BITS, 2 * bits);
    if exponent < 2 * bits { Pow2Monotone(exponent + 1, 2 * bits); }
  }

  lemma LineBits(b: nat)
    requires b <= 6
    ensures CacheLineIndexBits(Pow2(b)) == b
  {
    assert Pow2(1) == 2 && Pow2(2) == 4 && Pow2(3) == 8 && Pow2(4) == 16 && Pow2(5) == 32 && Pow2(6) == 64;
  }

  /** With 2^b elements on a line the width is exactly b from 2^(2b) slots on, and 0 on smaller rings. */
  lemma ShuffleBitsExact(b: nat, exponent: nat)
    requires b <= 6 && exponent < UNSIGNED_BITS
    ensures IndexShuffleBits(true, Pow2(exponent), Pow2(b)) == if 2 * b <= exponent then b else 0
  {
    LineBits(b);
    ShiftedOne(UNSIGNED_BITS, 2 * b);
    if 2 * b <= exponent { Pow2Monotone(2 * b, exponent); } else { Pow2Monotone(exponent + 1, 2 * b); }
  }

  /** The ring's own map: with 2^b elements on a line and at least 2^(2b) slots, as many cyclically consecutive indices
      as a line holds lie on different lines. */
  lemma ConsecutiveOnDistinctLines(b: nat, exponent: nat, start: nat, i: nat, j: nat)
    requires b <= 6 && 2 * b <= exponent < UNSIGNED_BITS && i < j < Pow2(b)
    ensures var width := IndexShuffleBits(true, Pow2(exponent), Pow2(b));
            && width == b
            && RemapIndex(width, (start + i) % Pow2(exponent)) / Pow2(b)
               != RemapIndex(width, (start + j) % Pow2(exponent)) / Pow2(b)
  {
    ShuffleBitsExact(b, exponent);
    RemapSpreadsCacheLines(b, exponent, start, i, j);
    CacheLineIsQuotient(b, (start + i) % Pow2(exponent));
    CacheLineIsQuotient(b, (start + j) % Pow2(exponent));
  }
}
