/** Sets of small numbers as arrays of 64-bit words, updated in place. */
module Bitset {
  import opened Word64

  predicate Get(b: seq<bv64>, pos: nat)
    requires pos < 64 * |b|
  {
    Bit(b[pos / 64], pos % 64)
  }

  /** The set a word array stands for. */
  function Members(b: seq<bv64>): set<nat> {
    set pos: nat | pos < 64 * |b| && Get(b, pos)
  }

  lemma PositionDiffers(a: seq<bv64>, b: seq<bv64>, k: nat) returns (pos: nat)
    requires |a| == |b| && k < |a| && a[k] != b[k]
    ensures (pos in Members(a)) != (pos in Members(b))
  {
    hide Bit;
    var i := WordsDiffer(a[k], b[k]);
    pos := 64 * k + i;
    assert pos / 64 == k && pos % 64 == i;
  }

  /** Word arrays of the same length stand for the same set only if they are equal. */
  lemma MembersDecide(a: seq<bv64>, b: seq<bv64>)
    requires |a| == |b| && Members(a) == Members(b)
    ensures a == b
  {
    forall k | 0 <= k < |a| ensures a[k] == b[k] {
      if a[k] != b[k] {
        var pos := PositionDiffers(a, b, k);
        assert false;
      }
    }
  }

  lemma ZeroHasNoBits(i: nat)
    requires i < 64
    ensures !Bit(0, i)
  {
  }

  /** Replacing one word changes exactly the positions inside it. */
  lemma SetWord(b: seq<bv64>, pos: nat)
    requires pos < 64 * |b|
    ensures Members(b[pos / 64 := With(b[pos / 64], Minor(pos % 64))]) == Members(b) + {pos}
    ensures Members(b[pos / 64 := Without(b[pos / 64], Minor(pos % 64))]) == Members(b) - {pos}
  {
    hide Bit, With, Without, Minor;
    var k, w := pos / 64, b[pos / 64];
    var more, less := b[k := With(w, Minor(pos % 64))], b[k := Without(w, Minor(pos % 64))];
    forall p: nat | p < 64 * |b|
      ensures Get(more, p) == (p == pos || Get(b, p)) && Get(less, p) == (p != pos && Get(b, p))
    {
      if p / 64 == k {
        SetBit(w, pos % 64, p % 64);
        assert p % 64 == pos % 64 <==> p == pos;
      }
    }
  }

  // ---------------------------------------------------------------- operations

  method NewBitset(bits: nat) returns (b: array<bv64>)
    ensures fresh(b) && 64 * b.Length >= bits && Members(b[..]) == {}
  {
    var extra := if bits % 64 != 0 then 1 else 0;
    b := new bv64[bits / 64 + extra](_ => 0);
    forall pos: nat | pos < 64 * b.Length ensures !Get(b[..], pos) {
      ZeroHasNoBits(pos % 64);
    }
  }

  /** A copy that later updates of the original do not touch. */
  method Clone(b: array<bv64>) returns (c: array<bv64>)
    ensures fresh(c) && c[..] == b[..]
  {
    c := new bv64[b.Length](i requires 0 <= i < b.Length reads b => b[i]);
  }

  method Set(b: array<bv64>, pos: nat)
    requires pos < 64 * b.Length
    modifies b
    ensures Members(b[..]) == old(Members(b[..])) + {pos}
  {
    SetWord(b[..], pos);
    ghost var before := b[..];
    b[pos / 64] := With(b[pos / 64], Minor(pos % 64));
    assert b[..] == before[pos / 64 := With(before[pos / 64], Minor(pos % 64))];
  }

  method Clear(b: array<bv64>, pos: nat)
    requires pos < 64 * b.Length
    modifies b
    ensures Members(b[..]) == old(Members(b[..])) - {pos}
  {
    SetWord(b[..], pos);
    ghost var before := b[..];
    b[pos / 64] := Without(b[pos / 64], Minor(pos % 64));
    assert b[..] == before[pos / 64 := Without(before[pos / 64], Minor(pos % 64))];
  }

  method Equals(a: array<bv64>, b: array<bv64>) returns (same: bool)
    ensures same == (a[..] == b[..])
    ensures a.Length == b.Length ==> same == (Members(a[..]) == Members(b[..]))
  {
    if a.Length != b.Length {
      return false;
    }
    if Members(a[..]) == Members(b[..]) {
      MembersDecide(a[..], b[..]);
    }
    for i := 0 to a.Length
      invariant forall k :: 0 <= k < i ==> a[k] == b[k]
    {
      if a[i] != b[i] {
        assert a[..][i] != b[..][i];
        return false;
      }
    }
    same := true;
  }

  /** Number of set bits of the first `n` words. */
  function OnesBelow(b: seq<bv64>, n: nat): nat
    requires n <= |b|
  {
    if n == 0 then 0 else OnesBelow(b, n - 1) + Ones(b[n - 1], 64)
  }

  method Popcnt(b: array<bv64>) returns (total: nat)
    ensures total == OnesBelow(b[..], b.Length) == |Members(b[..])|
  {
    PopcntIsSize(b[..]);
    total := 0;
    for i := 0 to b.Length
      invariant total == OnesBelow(b[..], i)
    {
      PopCountCorrect(b[i]);
      hide Ones, PopWord;
      total := total + PopWord(b[i]) as nat;
    }
  }

  /** `uint64(n)`. */
  function Truncated(n: nat): bv64 { (n % 0x1_0000_0000_0000_0000) as bv64 }

  function XorBelow(b: seq<bv64>, n: nat, seed: bv64): bv64
    requires n <= |b|
  {
    if n == 0 then seed else XorBelow(b, n - 1, seed) ^ b[n - 1]
  }

  /** The hash depends on the words alone. */
  function HashOf(b: seq<bv64>): bv64 { XorBelow(b, |b|, Truncated(OnesBelow(b, |b|))) }

  method Hash(b: array<bv64>) returns (hash: bv64)
    ensures hash == HashOf(b[..])
  {
    hide Truncated;
    var count := Popcnt(b);
    var seed := Truncated(count);
    hash := seed;
    for i := 0 to b.Length
      invariant hash == XorBelow(b[..], i, seed)
    {
      hash := hash ^ b[i];
    }
  }

  /** Members among the first `n` positions. */
  function Below(b: seq<bv64>, n: nat): set<nat> {
    set pos | pos in Members(b) && pos < n
  }

  lemma {:induction false} BitsBelow(b: seq<bv64>, k: nat, i: nat)
    requires k < |b| && i <= 64
    ensures |Below(b, 64 * k + i)| == |Below(b, 64 * k)| + Ones(b[k], i)
    decreases i
  {
    hide Bit;
    if i > 0 {
      BitsBelow(b, k, i - 1);
      var pos := 64 * k + i - 1;
      assert pos / 64 == k && pos % 64 == i - 1;
      assert Below(b, pos + 1) == if Get(b, pos) then Below(b, pos) + {pos} else Below(b, pos);
    }
  }

  lemma {:induction false} OnesCount(b: seq<bv64>, n: nat)
    requires n <= |b|
    ensures OnesBelow(b, n) == |Below(b, 64 * n)|
    decreases n
  {
    if n > 0 {
      OnesCount(b, n - 1);
      BitsBelow(b, n - 1, 64);
    }
  }

  /** The population count of a word array is the size of its set. */
  lemma PopcntIsSize(b: seq<bv64>)
    ensures OnesBelow(b, |b|) == |Members(b)|
  {
    OnesCount(b, |b|);
    assert Below(b, 64 * |b|) == Members(b);
  }
}
