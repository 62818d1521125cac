/** Arranging numbered things by rank, and executing arrangements piece by piece. */
module Ranking {
  import opened History

  /** The positions of rank `r` among the first `k`, in order. */
  function Bucket(ranks: seq<nat>, r: nat, k: nat): seq<nat>
    requires k <= |ranks|
  {
    if k == 0 then [] else Bucket(ranks, r, k - 1) + (if ranks[k - 1] == r then [k - 1] else [])
  }

  /** All positions of rank below `r`, by rank. */
  function ByRank(ranks: seq<nat>, r: nat): seq<nat> {
    if r == 0 then [] else ByRank(ranks, r - 1) + Bucket(ranks, r - 1, |ranks|)
  }

  lemma {:induction false} InBucket(ranks: seq<nat>, r: nat, k: nat)
    requires k <= |ranks|
    ensures forall x: nat :: x in Bucket(ranks, r, k) <==> x < k && ranks[x] == r
    ensures forall i, j :: 0 <= i < j < |Bucket(ranks, r, k)| ==> Bucket(ranks, r, k)[i] != Bucket(ranks, r, k)[j]
    decreases k
  {
    if k > 0 {
      InBucket(ranks, r, k - 1);
      var b := Bucket(ranks, r, k - 1);
      forall x: nat ensures x in Bucket(ranks, r, k) <==> x < k && ranks[x] == r {
        assert x in b <==> x < k - 1 && ranks[x] == r;
      }
      assert forall i :: 0 <= i < |b| ==> b[i] in b;
    }
  }

  /** Sorted by rank, each position of rank below `r` once. */
  ghost predicate Arranged(ranks: seq<nat>, order: seq<nat>, r: nat) {
    && (forall x: nat :: x in order <==> x < |ranks| && ranks[x] < r)
    && (forall i, j :: 0 <= i < j < |order| ==> order[i] != order[j])
    && (forall i, j :: 0 <= i < j < |order| && order[i] < |ranks| && order[j] < |ranks| ==>
        ranks[order[i]] <= ranks[order[j]])
  }

  lemma {:induction false} ByRankArranges(ranks: seq<nat>, r: nat)
    ensures Arranged(ranks, ByRank(ranks, r), r)
    decreases r
  {
    hide Arranged, Bucket;
    if r == 0 {
      NothingArranged(ranks);
    } else {
      ByRankArranges(ranks, r - 1);
      InBucket(ranks, r - 1, |ranks|);
      AppendBucket(ranks, ByRank(ranks, r - 1), Bucket(ranks, r - 1, |ranks|), r - 1);
    }
  }

  lemma NothingArranged(ranks: seq<nat>)
    ensures Arranged(ranks, [], 0)
  {
  }

  lemma AppendBucket(ranks: seq<nat>, a: seq<nat>, b: seq<nat>, r: nat)
    requires Arranged(ranks, a, r)
    requires forall x: nat :: x in b <==> x < |ranks| && ranks[x] == r
    requires forall i, j :: 0 <= i < j < |b| ==> b[i] != b[j]
    ensures Arranged(ranks, a + b, r + 1)
  {
    var c := a + b;
    forall x: nat ensures x in c <==> x < |ranks| && ranks[x] < r + 1 {
      assert x in c <==> x in a || x in b;
    }
    forall i | 0 <= i < |c| ensures c[i] < |ranks| && (i < |a| ==> ranks[c[i]] < r) && (i >= |a| ==> ranks[c[i]] == r) {
      assert if i < |a| then c[i] in a else c[i] in b;
    }
  }

  // ---------------------------------------------------------------- executing a sequence of operations

  function Final<S, I, O>(m: Model<S, I, O>, h: seq<Operation<I, O>>, s: S, order: seq<nat>): S
    requires forall i :: 0 <= i < |order| ==> order[i] < |h|
    decreases |order|
  {
    if order == [] then s
    else Final(m, h, m.step(s, h[order[0]].input, h[order[0]].output).1, order[1..])
  }

  lemma {:induction false} LegalAppend<S, I, O>(
    m: Model<S, I, O>, h: seq<Operation<I, O>>, s: S, a: seq<nat>, b: seq<nat>)
    requires (forall i :: 0 <= i < |a| ==> a[i] < |h|) && (forall i :: 0 <= i < |b| ==> b[i] < |h|)
    requires Legal(m, h, s, a) && Legal(m, h, Final(m, h, s, a), b)
    ensures Legal(m, h, s, a + b) && Final(m, h, s, a + b) == Final(m, h, Final(m, h, s, a), b)
    decreases |a|
  {
    if a == [] {
      assert a + b == b;
    } else {
      var s' := m.step(s, h[a[0]].input, h[a[0]].output).1;
      LegalAppend(m, h, s', a[1..], b);
      assert (a + b)[1..] == a[1..] + b;
    }
  }
}
