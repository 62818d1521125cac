/** Which positions of the event list are left once some operations have been taken out. */
module Pending {
  import opened History
  import opened EventList
  import opened Entries

  /** Position 0 is the head; entry `p` sits at position `p + 1` while its operation is not done. */
  ghost function Left<I, O>(es: seq<Entry<I, O>>, done: set<nat>, n: nat): seq<nat>
    requires n <= |es|
  {
    if n == 0 then [0] else Left(es, done, n - 1) + (if es[n - 1].id in done then [] else [n])
  }

  ghost predicate IsLeft<I, O>(es: seq<Entry<I, O>>, done: set<nat>, n: nat, q: nat)
    requires n <= |es|
  {
    q == 0 || (1 <= q <= n && es[q - 1].id !in done)
  }

  /** `pos` lists the head and the entries left, in order. */
  ghost predicate Lists<I, O>(es: seq<Entry<I, O>>, done: set<nat>, n: nat, pos: seq<nat>)
    requires n <= |es|
  {
    && |pos| > 0 && pos[0] == 0 && Positions(pos, n + 1)
    && (forall q: nat :: q in pos <==> IsLeft(es, done, n, q))
  }

  lemma {:induction false} LeftAre<I, O>(es: seq<Entry<I, O>>, done: set<nat>, n: nat)
    requires n <= |es|
    ensures Lists(es, done, n, Left(es, done, n))
    decreases n
  {
    hide Lists;
    if n == 0 {
      OnlyHeadLeft(es, done);
    } else {
      LeftAre(es, done, n - 1);
      OneMoreLeft(es, done, n - 1, Left(es, done, n - 1));
    }
  }

  lemma OnlyHeadLeft<I, O>(es: seq<Entry<I, O>>, done: set<nat>)
    ensures Lists(es, done, 0, [0])
  {
  }

  /** The next entry joins the list unless its operation is done. */
  lemma OneMoreLeft<I, O>(es: seq<Entry<I, O>>, done: set<nat>, n: nat, before: seq<nat>)
    requires n < |es| && Lists(es, done, n, before)
    ensures Lists(es, done, n + 1, before + (if es[n].id in done then [] else [n + 1]))
  {
    var pos := before + (if es[n].id in done then [] else [n + 1]);
    forall q: nat ensures q in pos <==> IsLeft(es, done, n + 1, q) {
      assert q in before <==> IsLeft(es, done, n, q);
      assert q in pos <==> q in before || (es[n].id !in done && q == n + 1);
    }
  }

  /** An increasing sequence is determined by its elements. */
  lemma {:induction false} SameIncreasing(a: seq<nat>, b: seq<nat>, n: nat)
    requires Positions(a, n) && Positions(b, n) && forall q: nat :: q in a <==> q in b
    ensures a == b
    decreases |a|
  {
    assert b != [] ==> b[0] in a;
    if a != [] {
      assert a[0] in b;
      var i, j := |a| - 1, |b| - 1;
      assert a[i] in b && b[j] in a;
      assert a[i] == b[j];
      var a', b' := a[..i], b[..j];
      forall q: nat ensures q in a' <==> q in b' {
        if q in a' {
          assert q in b;
        }
        if q in b' {
          assert q in a;
        }
      }
      SameIncreasing(a', b', n);
      assert a == a' + [a[i]] && b == b' + [b[j]];
    }
  }

  lemma RemoveElements(pos: seq<nat>, k: nat, n: nat)
    requires Positions(pos, n) && k < |pos|
    ensures forall q: nat :: q in Remove(pos, k) <==> q in pos && q != pos[k]
  {
    RemoveAt(pos, k, n);
    var rest := Remove(pos, k);
    hide Remove;
    forall q: nat ensures q in rest <==> q in pos && q != pos[k] {
      if q in pos && q != pos[k] {
        var j :| 0 <= j < |pos| && pos[j] == q;
        assert rest[if j < k then j else j - 1] == q;
      }
    }
  }

  lemma WithoutElements(pos: seq<nat>, k: nat, m: nat, n: nat)
    requires Positions(pos, n) && 0 < k < m < |pos|
    ensures Positions(Without(pos, k, m), n)
    ensures forall q: nat :: q in Without(pos, k, m) <==> q in pos && q != pos[k] && q != pos[m]
  {
    RemoveAt(pos, k, n);
    RemoveElements(pos, k, n);
    RemoveAt(Remove(pos, k), m - 1, n);
    RemoveElements(Remove(pos, k), m - 1, n);
    hide Remove;
  }

  /** Where the call and the return of a pending operation are. */
  lemma PairLeft<I, O>(es: seq<Entry<I, O>>, g: seq<Operation<I, O>>, done: set<nat>, x: nat) returns (k: nat, m: nat)
    requires Reads(es, g) && x < |g| && x !in done
    ensures var pos := Left(es, done, |es|); 0 < k < m < |pos| && pos[k] == g[x].call + 1 && pos[m] == g[x].ret + 1
  {
    var pos := Left(es, done, |es|);
    LeftAre(es, done, |es|);
    assert IsCall(es[g[x].call], x, g[x].input) && IsReturn(es[g[x].ret], x, g[x].output);
    assert IsLeft(es, done, |es|, g[x].call + 1) && IsLeft(es, done, |es|, g[x].ret + 1);
    k, m := IndexOf(pos, g[x].call + 1), IndexOf(pos, g[x].ret + 1);
  }

  lemma OfOperation<I, O>(es: seq<Entry<I, O>>, g: seq<Operation<I, O>>, x: nat, p: nat)
    requires Reads(es, g) && x < |g| && p < |es|
    ensures es[p].id == x <==> p == g[x].call || p == g[x].ret
  {
    assert IsCall(es[g[x].call], x, g[x].input) && IsReturn(es[g[x].ret], x, g[x].output);
  }

  /** Taking out the call and the return of `x` leaves exactly what is left once `x` is done. */
  lemma LeftWithout<I, O>(es: seq<Entry<I, O>>, g: seq<Operation<I, O>>, done: set<nat>, x: nat, k: nat, m: nat)
    requires Reads(es, g) && x < |g| && x !in done
    requires var pos := Left(es, done, |es|); 0 < k < m < |pos| && pos[k] == g[x].call + 1 && pos[m] == g[x].ret + 1
    ensures Left(es, done + {x}, |es|) == Without(Left(es, done, |es|), k, m)
  {
    var n, pos, pos' := |es| + 1, Left(es, done, |es|), Left(es, done + {x}, |es|);
    LeftAre(es, done, |es|);
    LeftAre(es, done + {x}, |es|);
    WithoutElements(pos, k, m, n);
    var rest := Without(pos, k, m);
    hide Left, Without, Positions, Reads;
    forall q: nat ensures q in pos' <==> q in rest {
      assert q in pos <==> IsLeft(es, done, |es|, q);
      assert q in pos' <==> IsLeft(es, done + {x}, |es|, q);
      if 1 <= q <= |es| {
        OfOperation(es, g, x, q - 1);
      }
    }
    SameIncreasing(pos', rest, n);
  }
}
