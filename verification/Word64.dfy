/** One 64-bit word: its bits, and the bit-parallel population count. */
module Word64 {

  // ---------------------------------------------------------------- bits

  /** `1 << a`. */
  function One(a: bv6): bv64 { (1 as bv64) << (a as bv64) }

  predicate Has(w: bv64, a: bv6) { w & One(a) != 0 }

  function With(w: bv64, a: bv6): bv64 { w | One(a) }

  function Without(w: bv64, a: bv6): bv64 { w & !One(a) }

  /** The position of a bit inside its word. */
  function Minor(i: nat): bv6
    requires i < 64
  {
    i as bv6
  }

  predicate Bit(w: bv64, i: nat)
    requires i < 64
  {
    Has(w, Minor(i))
  }

  lemma MinorNumber(i: nat)
    requires i < 64
    ensures Minor(i) as nat == i
  {
  }

  lemma NumberMinor(a: bv6)
    ensures a as nat < 64 && Minor(a as nat) == a
  {
  }

  lemma MinorsDiffer(i: nat, j: nat)
    requires i < 64 && j < 64 && i != j
    ensures Minor(i) != Minor(j)
  {
    hide Minor;
    MinorNumber(i);
    MinorNumber(j);
  }

  lemma HasSame(w: bv64, a: bv6)
    ensures Has(w | One(a), a) && !Has(w & !One(a), a)
  {
  }

  lemma HasOther(w: bv64, a: bv6, b: bv6)
    requires a != b
    ensures Has(w | One(a), b) == Has(w, b) && Has(w & !One(a), b) == Has(w, b)
  {
  }

  lemma WithSame(w: bv64, a: bv6)
    ensures Has(With(w, a), a) && !Has(Without(w, a), a)
  {
    HasSame(w, a);
  }

  lemma WithOther(w: bv64, a: bv6, b: bv6)
    requires a != b
    ensures Has(With(w, a), b) == Has(w, b) && Has(Without(w, a), b) == Has(w, b)
  {
    HasOther(w, a, b);
  }

  lemma SetBit(w: bv64, i: nat, j: nat)
    requires i < 64 && j < 64
    ensures Bit(With(w, Minor(i)), j) == (i == j || Bit(w, j))
    ensures Bit(Without(w, Minor(i)), j) == (i != j && Bit(w, j))
  {
    hide Has, With, Without, Minor;
    if i == j {
      WithSame(w, Minor(i));
    } else {
      MinorsDiffer(i, j);
      WithOther(w, Minor(i), Minor(j));
    }
  }

  /** Halves the word until one bit is left. */
  lemma LowestBit(d: bv64) returns (k: bv6)
    requires d != 0
    ensures Has(d, k)
  {
    var v := d;
    k := 0;
    if v & 0xFFFF_FFFF == 0 { v := v >> 32; k := 32; }
    if v & 0xFFFF == 0 { v := v >> 16; k := k + 16; }
    if v & 0xFF == 0 { v := v >> 8; k := k + 8; }
    if v & 0xF == 0 { v := v >> 4; k := k + 4; }
    if v & 3 == 0 { v := v >> 2; k := k + 2; }
    if v & 1 == 0 { k := k + 1; }
  }

  lemma XorBit(a: bv64, b: bv64, k: bv6)
    requires Has(a ^ b, k)
    ensures Has(a, k) != Has(b, k)
  {
  }

  lemma XorNonzero(a: bv64, b: bv64)
    requires a != b
    ensures a ^ b != 0
  {
  }

  /** Different words differ in some bit. */
  lemma WordsDiffer(a: bv64, b: bv64) returns (i: nat)
    requires a != b
    ensures i < 64 && Bit(a, i) != Bit(b, i)
  {
    hide Has, Minor;
    XorNonzero(a, b);
    var k := LowestBit(a ^ b);
    XorBit(a, b, k);
    NumberMinor(k);
    i := k as nat;
  }

  // ---------------------------------------------------------------- population count

  function Fold1(v: bv64): bv64 { (v & 0x5555_5555_5555_5555) + ((v & 0xAAAA_AAAA_AAAA_AAAA) >> 1) }

  function Fold2(v: bv64): bv64 { (v & 0x3333_3333_3333_3333) + ((v & 0xCCCC_CCCC_CCCC_CCCC) >> 2) }

  function Fold4(v: bv64): bv64 { (v & 0x0F0F_0F0F_0F0F_0F0F) + ((v & 0xF0F0_F0F0_F0F0_F0F0) >> 4) }

  /** The masked additions and the wrapping multiplication. */
  function PopWord(v: bv64): bv8 { AddBytes(Fold4(Fold2(Fold1(v)))) }

  function AddBytes(f: bv64): bv8 { (((f * 0x0101_0101_0101_0101) >> 56) & 0xFF) as bv8 }

  /** The number a byte stands for. */
  function Num(x: bv8): nat
    decreases x
  {
    if x == 0 then 0 else 1 + Num(x - 1)
  }

  /** How many of the lowest `n` bits are set. */
  function Ones(w: bv64, n: nat): nat
    requires n <= 64
  {
    if n == 0 then 0 else (if Bit(w, n - 1) then 1 else 0) + Ones(w, n - 1)
  }

  /** It is the number Dafny takes the byte for. */
  lemma {:induction false} NumIsValue(x: bv8)
    ensures Num(x) == x as nat
    decreases x
  {
    if x != 0 {
      NumIsValue(x - 1);
    }
  }

  lemma NumPred(x: bv8)
    requires x != 0
    ensures Num(x) == 1 + Num(x - 1)
  {
  }

  lemma Regroup(a: bv8, b: bv8)
    requires a <= 127 && 0 != b <= 127
    ensures a + b != 0 && (a + b) - 1 == a + (b - 1) && b - 1 <= 127
  {
  }

  lemma NumAddZero(a: bv8)
    ensures Num(a + 0) == Num(a) + Num(0)
  {
  }

  lemma {:induction false} NumAdd(a: bv8, b: bv8, k: nat)
    requires a <= 127 && b <= 127 && Num(b) == k
    ensures Num(a + b) == Num(a) + Num(b)
    decreases k
  {
    hide Num;
    if b == 0 {
      NumAddZero(a);
    } else {
      Regroup(a, b);
      NumPred(b);
      NumAdd(a, b - 1, k - 1);
      NumPred(a + b);
    }
  }

  lemma NumAddSmall(a: bv8, b: bv8)
    requires a <= 127 && b <= 127
    ensures Num(a + b) == Num(a) + Num(b)
  {
    hide Num;
    NumAdd(a, b, Num(b));
  }

  // Lanes of one, two, four and eight bits at the low end of a word, and what is above them.

  function Low1(v: bv64): bv8 { (v & 1) as bv8 }

  function Low2(v: bv64): bv8 { (v & 3) as bv8 }

  function Low4(v: bv64): bv8 { (v & 15) as bv8 }

  function Low8(v: bv64): bv8 { (v & 255) as bv8 }

  function Drop1(v: bv64): bv64 { v >> 1 }

  function Drop2(v: bv64): bv64 { v >> 2 }

  function Drop4(v: bv64): bv64 { v >> 4 }

  function Drop8(v: bv64): bv64 { v >> 8 }

  function Sum1(v: bv64, n: nat): nat { if n == 0 then 0 else Num(Low1(v)) + Sum1(Drop1(v), n - 1) }

  function Sum2(v: bv64, n: nat): nat { if n == 0 then 0 else Num(Low2(v)) + Sum2(Drop2(v), n - 1) }

  function Sum4(v: bv64, n: nat): nat { if n == 0 then 0 else Num(Low4(v)) + Sum4(Drop4(v), n - 1) }

  function Sum8(v: bv64, n: nat): nat { if n == 0 then 0 else Num(Low8(v)) + Sum8(Drop8(v), n - 1) }

  lemma Pair1(v: bv64)
    ensures Low2(Fold1(v)) == Low1(v) + Low1(Drop1(v)) && Drop2(Fold1(v)) == Fold1(Drop1(Drop1(v)))
    ensures Low1(v) <= 1 && Low1(Drop1(v)) <= 1
  {
  }

  lemma Pair2(v: bv64)
    ensures Low4(Fold2(v)) == Low2(v) + Low2(Drop2(v)) && Drop4(Fold2(v)) == Fold2(Drop2(Drop2(v)))
    ensures Low2(v) <= 3 && Low2(Drop2(v)) <= 3
  {
  }

  lemma Pair4(v: bv64)
    ensures Low8(Fold4(v)) == Low4(v) + Low4(Drop4(v)) && Drop8(Fold4(v)) == Fold4(Drop4(Drop4(v)))
    ensures Low4(v) <= 15 && Low4(Drop4(v)) <= 15
  {
  }

  /** Adding neighbouring bits, pairs and nibbles keeps the sum: no lane overflows into the next. */
  lemma {:induction false} FoldsBits(v: bv64, n: nat)
    ensures Sum2(Fold1(v), n) == Sum1(v, 2 * n)
    decreases n
  {
    if n > 0 {
      hide Fold1, Num, Low1, Low2, Drop1, Drop2;
      Pair1(v);
      NumAddSmall(Low1(v), Low1(Drop1(v)));
      FoldsBits(Drop1(Drop1(v)), n - 1);
      assert Sum1(v, 2 * n) == Num(Low1(v)) + (Num(Low1(Drop1(v))) + Sum1(Drop1(Drop1(v)), 2 * (n - 1)));
    }
  }

  lemma {:induction false} FoldsPairs(v: bv64, n: nat)
    ensures Sum4(Fold2(v), n) == Sum2(v, 2 * n)
    decreases n
  {
    if n > 0 {
      hide Fold2, Num, Low2, Low4, Drop2, Drop4;
      Pair2(v);
      NumAddSmall(Low2(v), Low2(Drop2(v)));
      FoldsPairs(Drop2(Drop2(v)), n - 1);
      assert Sum2(v, 2 * n) == Num(Low2(v)) + (Num(Low2(Drop2(v))) + Sum2(Drop2(Drop2(v)), 2 * (n - 1)));
    }
  }

  lemma {:induction false} FoldsNibbles(v: bv64, n: nat)
    ensures Sum8(Fold4(v), n) == Sum4(v, 2 * n)
    decreases n
  {
    if n > 0 {
      hide Fold4, Num, Low4, Low8, Drop4, Drop8;
      Pair4(v);
      NumAddSmall(Low4(v), Low4(Drop4(v)));
      FoldsNibbles(Drop4(Drop4(v)), n - 1);
      assert Sum4(v, 2 * n) == Num(Low4(v)) + (Num(Low4(Drop4(v))) + Sum4(Drop4(Drop4(v)), 2 * (n - 1)));
    }
  }

  // The bytes of a word, lowest first.

  function Byte(v: bv64, k: bv64): bv8
    requires k < 64
  {
    ((v >> k) & 255) as bv8
  }

  /** No byte of the word exceeds `31`. */
  predicate SmallBytes(v: bv64) { v & 0xE0E0_E0E0_E0E0_E0E0 == 0 }

  lemma FoldIsSmall(v: bv64)
    ensures SmallBytes(Fold4(v))
  {
  }

  lemma ByteBounds(v: bv64)
    requires SmallBytes(v)
    ensures Byte(v, 0) <= 31 && Byte(v, 8) <= 31 && Byte(v, 16) <= 31 && Byte(v, 24) <= 31
    ensures Byte(v, 32) <= 31 && Byte(v, 40) <= 31 && Byte(v, 48) <= 31 && Byte(v, 56) <= 31
  {
  }

  // The multiplication by 0x0101010101010101, in three doubling steps.

  function Spread1(v: bv64): bv64 { v * 0x101 }

  function Spread2(v: bv64): bv64 { v * 0x1_0001 }

  function Spread4(v: bv64): bv64 { v * 0x1_0000_0001 }

  lemma SpreadInside(f: bv64)
    ensures Spread2(Spread1(f)) == Spread2(f * 0x101)
  {
    hide Spread2;
  }

  lemma SpreadTwice(f: bv64)
    ensures Spread2(f * 0x101) == (f * 0x101) * 0x1_0001
  {
  }

  lemma SpreadAgain(f: bv64)
    ensures Spread4(Spread2(Spread1(f))) == Spread4((f * 0x101) * 0x1_0001)
  {
    hide Spread1, Spread2, Spread4;
    SpreadInside(f);
    SpreadTwice(f);
  }

  lemma SpreadAll(f: bv64)
    ensures Spread4((f * 0x101) * 0x1_0001) == f * 0x0101_0101_0101_0101
  {
  }

  lemma Product(f: bv64)
    ensures f * 0x0101_0101_0101_0101 == Spread4(Spread2(Spread1(f)))
  {
    hide Spread1, Spread2, Spread4;
    SpreadAgain(f);
    SpreadAll(f);
  }

  lemma BytePairs(v: bv64)
    requires SmallBytes(v)
    ensures var s := Spread1(v);
            && Byte(s, 8) == Byte(v, 8) + Byte(v, 0) && Byte(s, 24) == Byte(v, 24) + Byte(v, 16)
            && Byte(s, 40) == Byte(v, 40) + Byte(v, 32) && Byte(s, 56) == Byte(v, 56) + Byte(v, 48)
  {
  }

  lemma PairsFit(v: bv64)
    requires SmallBytes(v)
    ensures Spread1(v) & 0xC0C0_C0C0_C0C0_C0C0 == 0 && Spread2(Spread1(v)) & 0x8080_8080_8080_8080 == 0
  {
  }

  lemma LowQuad(v: bv64)
    requires v & 0xC0C0_C0C0_C0C0_C0C0 == 0
    ensures Byte(Spread2(v), 24) == Byte(v, 24) + Byte(v, 8)
    ensures Byte(v, 24) <= 127 && Byte(v, 8) <= 127
  {
  }

  lemma HighQuad(v: bv64)
    requires v & 0xC0C0_C0C0_C0C0_C0C0 == 0
    ensures Byte(Spread2(v), 56) == Byte(v, 56) + Byte(v, 40)
    ensures Byte(v, 56) <= 127 && Byte(v, 40) <= 127
  {
  }

  lemma ByteHalves(v: bv64)
    requires v & 0x8080_8080_8080_8080 == 0
    ensures Byte(Spread4(v), 56) == Byte(v, 56) + Byte(v, 24)
    ensures Byte(v, 56) <= 127 && Byte(v, 24) <= 127
  {
  }

  lemma NumPairs(v: bv64)
    requires SmallBytes(v)
    ensures var s := Spread1(v);
            && Num(Byte(s, 8)) == Num(Byte(v, 8)) + Num(Byte(v, 0))
            && Num(Byte(s, 24)) == Num(Byte(v, 24)) + Num(Byte(v, 16))
            && Num(Byte(s, 40)) == Num(Byte(v, 40)) + Num(Byte(v, 32))
            && Num(Byte(s, 56)) == Num(Byte(v, 56)) + Num(Byte(v, 48))
  {
    hide Num, Byte, Spread1, SmallBytes;
    BytePairs(v);
    ByteBounds(v);
    NumAddSmall(Byte(v, 8), Byte(v, 0));
    NumAddSmall(Byte(v, 24), Byte(v, 16));
    NumAddSmall(Byte(v, 40), Byte(v, 32));
    NumAddSmall(Byte(v, 56), Byte(v, 48));
  }

  lemma NumQuads(v: bv64)
    requires v & 0xC0C0_C0C0_C0C0_C0C0 == 0
    ensures Num(Byte(Spread2(v), 24)) == Num(Byte(v, 24)) + Num(Byte(v, 8))
    ensures Num(Byte(Spread2(v), 56)) == Num(Byte(v, 56)) + Num(Byte(v, 40))
  {
    hide Num, Byte, Spread2, Spread4;
    LowQuad(v);
    NumAddSmall(Byte(v, 24), Byte(v, 8));
    HighQuad(v);
    NumAddSmall(Byte(v, 56), Byte(v, 40));
  }

  lemma NumHalves(v: bv64)
    requires v & 0x8080_8080_8080_8080 == 0
    ensures Num(Byte(Spread4(v), 56)) == Num(Byte(v, 56)) + Num(Byte(v, 24))
  {
    hide Num, Byte, Spread2, Spread4;
    ByteHalves(v);
    NumAddSmall(Byte(v, 56), Byte(v, 24));
  }

  lemma DropBytes(v: bv64)
    ensures Low8(v) == Byte(v, 0) && Byte(Drop8(v), 0) == Byte(v, 8)
    ensures Byte(Drop8(v), 8) == Byte(v, 16) && Byte(Drop8(v), 16) == Byte(v, 24) && Byte(Drop8(v), 24) == Byte(v, 32)
    ensures Byte(Drop8(v), 32) == Byte(v, 40) && Byte(Drop8(v), 40) == Byte(v, 48) && Byte(Drop8(v), 48) == Byte(v, 56)
  {
  }

  lemma FirstBytes(v: bv64, n: nat)
    requires n >= 4
    ensures Sum8(v, n) == Num(Byte(v, 0)) + Num(Byte(v, 8)) + Num(Byte(v, 16)) + Num(Byte(v, 24))
                        + Sum8(Drop8(Drop8(Drop8(Drop8(v)))), n - 4)
  {
    hide Num, Byte, Drop8, Low8;
    var a, b, c := Drop8(v), Drop8(Drop8(v)), Drop8(Drop8(Drop8(v)));
    DropBytes(v);
    DropBytes(a);
    DropBytes(b);
    DropBytes(c);
    assert Sum8(v, n) == Num(Low8(v)) + (Num(Low8(a)) + Sum8(b, n - 2));
    assert Sum8(b, n - 2) == Num(Low8(b)) + (Num(Low8(c)) + Sum8(Drop8(c), n - 4));
  }

  lemma LastBytes(v: bv64)
    ensures var w := Drop8(Drop8(Drop8(Drop8(v))));
            Byte(w, 0) == Byte(v, 32) && Byte(w, 8) == Byte(v, 40) && Byte(w, 16) == Byte(v, 48)
            && Byte(w, 24) == Byte(v, 56)
  {
  }

  lemma SumOfBytes(v: bv64)
    ensures Sum8(v, 8) == Num(Byte(v, 0)) + Num(Byte(v, 8)) + Num(Byte(v, 16)) + Num(Byte(v, 24))
                        + Num(Byte(v, 32)) + Num(Byte(v, 40)) + Num(Byte(v, 48)) + Num(Byte(v, 56))
  {
    hide Num, Byte, Drop8, Low8;
    FirstBytes(v, 8);
    LastBytes(v);
    FirstBytes(Drop8(Drop8(Drop8(Drop8(v)))), 4);
  }

  /** The top byte of the product counts all the bytes. */
  lemma CountBytes(f: bv64)
    requires SmallBytes(f)
    ensures Num(Byte(Spread4(Spread2(Spread1(f))), 56)) == Sum8(f, 8)
  {
    hide Num, Byte, Sum8, Spread1, Spread2, Spread4, SmallBytes;
    PairsFit(f);
    NumPairs(f);
    NumQuads(Spread1(f));
    NumHalves(Spread2(Spread1(f)));
    SumOfBytes(f);
  }

  lemma {:induction false} LowBits(w: bv64, n: nat)
    requires n <= 64
    ensures Sum1(w, n) == Ones(w, n)
    decreases n
  {
    if n > 0 {
      hide Num, Bit, Low1, Drop1;
      LowBits(Drop1(w), n - 1);
      OnesShift(w, n);
      FirstBit(w);
    }
  }

  lemma FirstBit(w: bv64)
    ensures Num(Low1(w)) == if Bit(w, 0) then 1 else 0
  {
    assert Minor(0) == 0;
    LowBit(w);
    NumPred(1);
  }

  lemma LowBit(w: bv64)
    ensures Low1(w) == if Has(w, 0) then 1 else 0
  {
  }

  lemma MinorSucc(i: nat)
    requires i < 63
    ensures Minor(i) < 63 && Minor(i + 1) == Minor(i) + 1
  {
    MinorNumber(i);
    MinorNumber(i + 1);
    NextMinor(Minor(i));
  }

  lemma NextMinor(a: bv6)
    requires a as nat < 63
    ensures a < 63 && (a + 1) as nat == a as nat + 1
  {
  }

  lemma HasShifted(w: bv64, a: bv6)
    requires a < 63
    ensures Has(w >> 1, a) == Has(w, a + 1)
  {
  }

  lemma HasShift(w: bv64, a: bv6)
    requires a < 63
    ensures Has(Drop1(w), a) == Has(w, a + 1)
  {
    HasShifted(w, a);
  }

  lemma BitShift(w: bv64, i: nat)
    requires i < 63
    ensures Bit(Drop1(w), i) == Bit(w, i + 1)
  {
    hide Has, Minor, Drop1;
    MinorSucc(i);
    HasShift(w, Minor(i));
  }

  lemma {:induction false} OnesShift(w: bv64, n: nat)
    requires 0 < n <= 64
    ensures Ones(w, n) == (if Bit(w, 0) then 1 else 0) + Ones(Drop1(w), n - 1)
    decreases n
  {
    if n > 1 {
      hide Bit, Drop1;
      OnesShift(w, n - 1);
      BitShift(w, n - 2);
    }
  }

  lemma ProductByte(f: bv64)
    ensures AddBytes(f) == Byte(f * 0x0101_0101_0101_0101, 56)
  {
  }

  lemma BytesAdded(f: bv64)
    requires SmallBytes(f)
    ensures Num(AddBytes(f)) == Sum8(f, 8)
  {
    hide Num, Byte, Sum8, Spread1, Spread2, Spread4, SmallBytes, AddBytes;
    ProductByte(f);
    Product(f);
    CountBytes(f);
  }

  /** The bit-parallel count is the number of set bits. */
  lemma PopCountCorrect(v: bv64)
    ensures PopWord(v) as nat == Ones(v, 64)
  {
    hide Fold1, Fold2, Fold4, AddBytes, SmallBytes, Num, Ones, Sum1, Sum2, Sum4, Sum8;
    NumIsValue(PopWord(v));
    FoldIsSmall(Fold2(Fold1(v)));
    FoldsNibbles(Fold2(Fold1(v)), 8);
    FoldsPairs(Fold1(v), 16);
    FoldsBits(v, 32);
    LowBits(v, 64);
    BytesAdded(Fold4(Fold2(Fold1(v))));
  }
}
