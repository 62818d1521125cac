/** From a recorded history to the verdict on it, for operations and for events. */
module CheckHistory {
  import opened History
  import opened Search
  import opened EventList
  import opened Entries
  import opened Checker
  import opened Locality

  /** What a search of `h` promises about its answer, given whether it saw the kill flag set. */
  ghost predicate Promised<S, I, O>(m: Model<S, I, O>, h: seq<Operation<I, O>>, answer: bool, killed: bool) {
    && (answer ==> Linearizable(m, h))
    && (!answer && NoTies(h) ==> !Linearizable(m, h) || killed)
  }

  /** One partition of an operation history, sorted, linked and searched; `seen` is the last look at the flag. */
  method CheckOperations<S(==, !new), I, O>(m: Model<S, I, O>, h: seq<Operation<I, O>>, kill: nat -> bool)
    returns (ok: bool, ghost seen: nat)
    requires forall i :: 0 <= i < |h| ==> h[i].call < h[i].ret
    ensures Promised(m, h, ok, kill(seen))
  {
    hide Reads, Carries, Shape, Line, Linearizable, NoTies, Refines;
    var es, g := MakeEntries(h);
    var l, nodes := LinkEntries(es, g);
    ok, seen := CheckSingle(m, l, kill, nodes, es, g);
    if ok {
      RefinesSound(m, h, g);
    }
    if NoTies(h) {
      SameOrderSameVerdict(m, h, g);
    }
  }

  /** A write and a read of the old value that starts the instant the write ends. */
  const TIED: KvHistory :=
      [Operation(KvInput(1, "k", "v"), 0, KvOutput(""), 1), Operation(KvInput(0, "k", ""), 1, KvOutput(""), 2)]

  /** Its entries, with the return before the call of the same instant: sorted by time all the same. */
  const TIED_ENTRIES: seq<Entry<KvInput, KvOutput>> :=
    [Entry(false, In(TIED[0].input), 0, 0), Entry(true, Out(TIED[0].output), 0, 1),
     Entry(false, In(TIED[1].input), 1, 1), Entry(true, Out(TIED[1].output), 1, 2)]

  /** The history those entries tell. */
  const STRICT: KvHistory :=
      [Operation(TIED[0].input, 0, TIED[0].output, 1), Operation(TIED[1].input, 2, TIED[1].output, 3)]

  lemma TiedEntries()
    ensures Listed(TIED, TIED_ENTRIES) && Sorted(TIED_ENTRIES) && Reads(TIED_ENTRIES, STRICT)
  {
  }

  lemma TiedLinearizable()
    ensures Linearizable(KV_MODEL, TIED)
  {
    var order := [1, 0];
    assert order[0] == 1 && order[1] == 0 && order[1..] == [0] && [0][1..] == [] && [0][0] == 0;
    assert KV_MODEL.step("", TIED[1].input, TIED[1].output) == (true, "");
    assert KV_MODEL.step("", TIED[0].input, TIED[0].output).0;
    assert Legal(KV_MODEL, TIED, "", [0]);
    assert Legal(KV_MODEL, TIED, "", order);
    assert Linearization(KV_MODEL, TIED, order);
  }

  /** With a tie, sorting may put the return first, and then a linearizable history is refused. */
  lemma TieIsRefused()
    ensures Linearizable(KV_MODEL, TIED) && !NoTies(TIED)
    ensures Listed(TIED, TIED_ENTRIES) && Sorted(TIED_ENTRIES) && Reads(TIED_ENTRIES, STRICT)
    ensures !Linearizable(KV_MODEL, STRICT)
  {
    TiedEntries();
    TiedLinearizable();
    hide Listed, Sorted, Reads;
    assert TIED[0].ret == TIED[1].call;
    forall o ensures !Linearization(KV_MODEL, STRICT, o) {
      if Permutation(o, 2) && RespectsTime(STRICT, o) {
        OnlyOrder(STRICT, o);
        assert o[1..] == [1] && o[0] == 0;
        assert !Legal(KV_MODEL, STRICT, "v", [1]);
      }
    }
  }

  // ---------------------------------------------------------------- ties are exactly what sorting may change

  /** Every arrangement of the entries by time tells the history, up to the times themselves. */
  ghost predicate SortingFaithful<I(!new), O(!new)>(h: seq<Operation<I, O>>, raw: seq<Entry<I, O>>)
    requires |raw| == 2 * |h|
  {
    forall es, perm :: Rearranged(raw, es, perm) && Sorted(es) ==> SameOrder(h, Positional(h, perm))
  }

  lemma InsertSorted<I, O>(es: seq<Entry<I, O>>, k: nat, e: Entry<I, O>)
    requires Sorted(es) && k <= |es|
    requires (forall i :: 0 <= i < k ==> es[i].time <= e.time) && (forall i :: k <= i < |es| ==> es[i].time > e.time)
    ensures Sorted(InsertAt(es, k, e))
  {
    InsertedAt(es, k, e);
  }

  /** There is always some arrangement by time. */
  lemma {:induction false} SortedExists<I, O>(raw: seq<Entry<I, O>>, n: nat)
    returns (es: seq<Entry<I, O>>, perm: seq<nat>)
    requires n <= |raw|
    ensures Sorted(es) && Rearranged(raw[..n], es, perm)
    decreases n
  {
    if n == 0 {
      es, perm := [], [];
    } else {
      es, perm := SortedExists(raw, n - 1);
      var k := PlaceOf(es, raw[n - 1].time);
      InsertSorted(es, k, raw[n - 1]);
      InsertRearranged(raw, n - 1, es, perm, k);
      es, perm := InsertAt(es, k, raw[n - 1]), InsertAt(perm, k, n - 1);
    }
  }

  function Swap<T>(s: seq<T>, p: nat, q: nat): seq<T>
    requires p < |s| && q < |s|
  {
    s[p := s[q]][q := s[p]]
  }

  lemma SwapPermutation(perm: seq<nat>, n: nat, p: nat, q: nat)
    requires Permutation(perm, n) && p < |perm| && q < |perm|
    ensures Permutation(Swap(perm, p, q), n)
  {
    var r := Swap(perm, p, q);
    forall x | 0 <= x < n ensures x in r {
      assert x in perm;
      var j :| 0 <= j < |perm| && perm[j] == x;
      assert r[if j == p then q else if j == q then p else j] == x;
    }
  }

  /** Two entries of equal time may change places. */
  lemma SwapSorted<I, O>(raw: seq<Entry<I, O>>, es: seq<Entry<I, O>>, perm: seq<nat>, p: nat, q: nat)
    requires Rearranged(raw, es, perm) && Sorted(es) && p < |es| && q < |es| && es[p].time == es[q].time
    ensures Rearranged(raw, Swap(es, p, q), Swap(perm, p, q)) && Sorted(Swap(es, p, q))
  {
    SwapPermutation(perm, |raw|, p, q);
    hide Permutation;
  }

  /** Each entry has one place. */
  lemma PlaceIs(perm: seq<nat>, n: nat, v: nat, k: nat)
    requires Permutation(perm, n) && k < |perm| && perm[k] == v
    ensures v in perm && IndexOf(perm, v) == k
  {
  }

  /** A return and a call of the same instant can be arranged with the return first. */
  lemma ReturnFirst<I, O>(h: seq<Operation<I, O>>, raw: seq<Entry<I, O>>, i: nat, j: nat)
    returns (es: seq<Entry<I, O>>, perm: seq<nat>)
    requires Listed(h, raw) && i < |h| && j < |h| && h[i].ret == h[j].call
    ensures Rearranged(raw, es, perm) && Sorted(es)
    ensures Positional(h, perm)[i].ret < Positional(h, perm)[j].call
  {
    es, perm := SortedExists(raw, |raw|);
    assert raw[..|raw|] == raw;
    assert 2 * i + 1 in perm && 2 * j in perm;
    var p, q := IndexOf(perm, 2 * i + 1), IndexOf(perm, 2 * j);
    if q < p {
      assert es[p] == raw[2 * i + 1] && es[q] == raw[2 * j];
      SwapSorted(raw, es, perm, p, q);
      es, perm := Swap(es, p, q), Swap(perm, p, q);
      PlaceIs(perm, |raw|, 2 * i + 1, q);
      PlaceIs(perm, |raw|, 2 * j, p);
    } else {
      assert p != q;
    }
  }

  /** Sorting by time alone is faithful to the history exactly when no call starts the instant another ends. */
  lemma SortingFaithfulIff<I(!new), O(!new)>(h: seq<Operation<I, O>>, raw: seq<Entry<I, O>>)
    requires Listed(h, raw) && forall i :: 0 <= i < |h| ==> h[i].call < h[i].ret
    ensures SortingFaithful(h, raw) <==> NoTies(h)
  {
    hide Permutation, Sorted, Positional;
    if NoTies(h) {
      forall es, perm | Rearranged(raw, es, perm) && Sorted(es) ensures SameOrder(h, Positional(h, perm)) {
        PositionalOrder(h, raw, es, perm);
      }
    } else {
      var i, j :| 0 <= i < |h| && 0 <= j < |h| && h[i].ret == h[j].call;
      var es, perm := ReturnFirst(h, raw, i, j);
      assert !Refines(Positional(h, perm), h);
    }
  }

  lemma OnlyOrder(g: KvHistory, o: seq<nat>)
    requires |g| == 2 && g[0].ret < g[1].call && Permutation(o, 2) && RespectsTime(g, o)
    ensures o == [0, 1]
  {
    assert 0 in o && 1 in o;
    var i :| 0 <= i < |o| && o[i] == 0;
    var j :| 0 <= j < |o| && o[j] == 1;
    assert i < j;
    PermutationSize(o, 2);
  }

  // ---------------------------------------------------------------- events are not partitioned

  lemma {:induction false} ProjectAll(h: KvHistory, key: string, n: nat)
    requires n <= |h| && forall i :: 0 <= i < n ==> h[i].input.key == key
    ensures Project(h, key, n) == h[..n]
    decreases n
  {
    if n > 0 {
      ProjectAll(h, key, n - 1);
      assert h[..n] == h[..n - 1] + [h[n - 1]];
    }
  }

  /** Events are searched in one piece with the one-key model: that is the map's verdict as long as there is one key. */
  lemma OneKeySameVerdict(h: KvHistory, key: string)
    requires forall i :: 0 <= i < |h| ==> h[i].call < h[i].ret && h[i].input.key == key
    ensures Linearizable(KV_MODEL, h) <==> Linearizable(MAP_MODEL, h)
  {
    PartitionIsSound(h);
    ProjectAll(h, key, |h|);
    assert h[..|h|] == h;
    if |h| > 0 {
      assert h[0].input.key in KeysOf(h);
    } else {
      assert Linearization(KV_MODEL, h, []);
    }
  }

  /** A write of one key, then a read of another. */
  function TwoKeys(a: string, b: string): KvHistory {
    [Operation(KvInput(1, a, "v"), 0, KvOutput(""), 1), Operation(KvInput(0, b, ""), 2, KvOutput(""), 3)]
  }

  /** With any two keys the one-key model refuses something the map allows. */
  lemma TwoKeysRefused(a: string, b: string)
    requires a != b
    ensures Linearizable(MAP_MODEL, TwoKeys(a, b)) && !Linearizable(KV_MODEL, TwoKeys(a, b))
  {
    var h, order, st := TwoKeys(a, b), [0, 1], map[a := "v"];
    assert order[0] == 0 && order[1] == 1 && order[1..] == [1] && [1][1..] == [];
    assert map[][a := "v"] == st && Lookup(st, b) == "";
    assert Legal(MAP_MODEL, h, st, [1]) && Legal(MAP_MODEL, h, map[], order);
    assert Linearization(MAP_MODEL, h, order);
    forall o ensures !Linearization(KV_MODEL, h, o) {
      if Permutation(o, 2) && RespectsTime(h, o) {
        OnlyOrder(h, o);
        assert o[1..] == [1] && o[0] == 0;
        assert !Legal(KV_MODEL, h, "v", [1]);
      }
    }
  }

  /** A history of operations on `keys`, each called before it returns. */
  ghost predicate Over(h: KvHistory, keys: iset<string>) {
    forall i :: 0 <= i < |h| ==> h[i].call < h[i].ret && h[i].input.key in keys
  }

  ghost predicate AtMostOne(keys: iset<string>) {
    forall a, b :: a in keys && b in keys ==> a == b
  }

  /** The two models agree on every history over `keys`. */
  ghost predicate ModelsAgree(keys: iset<string>) {
    forall h: KvHistory :: Over(h, keys) ==> (Linearizable(KV_MODEL, h) <==> Linearizable(MAP_MODEL, h))
  }

  /** Searching events in one piece with the one-key model is right exactly for histories of at most one key. */
  lemma ModelsAgreeIff(keys: iset<string>)
    ensures ModelsAgree(keys) <==> AtMostOne(keys)
  {
    hide Linearizable;
    if AtMostOne(keys) {
      forall h: KvHistory | Over(h, keys) ensures Linearizable(KV_MODEL, h) <==> Linearizable(MAP_MODEL, h) {
        OneKeySameVerdict(h, if h == [] then "" else h[0].input.key);
      }
    } else {
      var a, b :| a in keys && b in keys && a != b;
      TwoKeysRefused(a, b);
      assert Over(TwoKeys(a, b), keys);
    }
  }
}
