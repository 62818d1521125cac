/**
 The key/value models: one string per key, which the checker searches with,
 and the whole map, which the service is meant to be. A history is
 linearizable against the map exactly if its part for every key is
 linearizable against the string.
 */
module Locality {
  import opened History
  import opened Search

  datatype KvInput = KvInput(op: nat, key: string, value: string)

  datatype KvOutput = KvOutput(value: string)

  type KvHistory = seq<Operation<KvInput, KvOutput>>

  // ---------------------------------------------------------------- models

  /** One key: get, put, and append for every other operation code. */
  function KvStep(st: string, i: KvInput, o: KvOutput): (bool, string) {
    if i.op == 0 then (o.value == st, st)
    else if i.op == 1 then (true, i.value)
    else (true, st + i.value)
  }

  const KV_MODEL: Model<string, KvInput, KvOutput> := Model("", KvStep)

  function Lookup(st: map<string, string>, key: string): string {
    if key in st then st[key] else ""
  }

  /** All keys; a key never written reads as the empty string. */
  function MapStep(st: map<string, string>, i: KvInput, o: KvOutput): (bool, map<string, string>) {
    if i.op == 0 then (o.value == Lookup(st, i.key), st)
    else if i.op == 1 then (true, st[i.key := i.value])
    else (true, st[i.key := Lookup(st, i.key) + i.value])
  }

  const MAP_MODEL: Model<map<string, string>, KvInput, KvOutput> := Model(map[], MapStep)

  /** A step of the map is a step of its key, and leaves the other keys alone. */
  lemma StepByKey(st: map<string, string>, i: KvInput, o: KvOutput, key: string)
    ensures var (ok, st') := MapStep(st, i, o);
            && (i.key == key ==> KvStep(Lookup(st, key), i, o) == (ok, Lookup(st', key)))
            && (i.key != key ==> Lookup(st', key) == Lookup(st, key))
  {
  }

  // ---------------------------------------------------------------- parts of a history

  /** Positions in `h` of the operations on `key`, in order. */
  function Where(h: KvHistory, key: string, n: nat): seq<nat>
    requires n <= |h|
  {
    if n == 0 then [] else Where(h, key, n - 1) + (if h[n - 1].input.key == key then [n - 1] else [])
  }

  function Project(h: KvHistory, key: string, n: nat): KvHistory
    requires n <= |h|
  {
    if n == 0 then [] else Project(h, key, n - 1) + (if h[n - 1].input.key == key then [h[n - 1]] else [])
  }

  /** `w` lists, once each, the operations on `key` among the first `n`, and `part` is what it lists. */
  ghost predicate Lists(h: KvHistory, key: string, n: nat, w: seq<nat>, part: KvHistory)
    requires n <= |h|
  {
    && |part| == |w|
    && (forall j :: 0 <= j < |w| ==> w[j] < n && h[w[j]].input.key == key && part[j] == h[w[j]])
    && Apart(w)
    && (forall x :: 0 <= x < n && h[x].input.key == key ==> x in w)
  }

  predicate Apart(w: seq<nat>) {
    forall i, j :: 0 <= i < j < |w| ==> w[i] != w[j]
  }

  lemma {:induction false} WhereAre(h: KvHistory, key: string, n: nat)
    requires n <= |h|
    ensures Lists(h, key, n, Where(h, key, n), Project(h, key, n))
    decreases n
  {
    if n == 0 {
      ListsNothing(h, key);
    } else {
      hide Lists;
      WhereAre(h, key, n - 1);
      ListsMore(h, key, n - 1, Where(h, key, n - 1), Project(h, key, n - 1));
    }
  }

  lemma ListsNothing(h: KvHistory, key: string)
    ensures Lists(h, key, 0, [], [])
  {
  }

  lemma ListsMore(h: KvHistory, key: string, n: nat, w: seq<nat>, part: KvHistory)
    requires n < |h| && Lists(h, key, n, w, part)
    ensures h[n].input.key == key ==> Lists(h, key, n + 1, w + [n], part + [h[n]])
    ensures h[n].input.key != key ==> Lists(h, key, n + 1, w + [], part + [])
  {
    assert w + [] == w && part + [] == part;
    var w' := w + [n];
    forall x | 0 <= x < n + 1 && h[x].input.key == key ensures x in w' {
      if x < n {
        assert x in w;
      } else {
        assert w'[|w|] == x;
      }
    }
  }

  /** `order` arranges exactly the operations on `key`. */
  ghost predicate OfKey(h: KvHistory, key: string, order: seq<nat>) {
    && (forall i :: 0 <= i < |order| ==> order[i] < |h| && h[order[i]].input.key == key)
    && Apart(order)
    && (forall x :: 0 <= x < |h| && h[x].input.key == key ==> x in order)
  }

  /** A legal arrangement of the operations on `key`, told by their positions in the whole history. */
  ghost predicate KeyOrder(h: KvHistory, key: string, order: seq<nat>) {
    OfKey(h, key, order) && RespectsTime(h, order) && Legal(KV_MODEL, h, "", order)
  }

  function Through(w: seq<nat>, order: seq<nat>): seq<nat>
    requires forall i :: 0 <= i < |order| ==> order[i] < |w|
  {
    seq(|order|, i requires 0 <= i < |order| => w[order[i]])
  }

  lemma {:induction false} LegalThrough(h: KvHistory, part: KvHistory, w: seq<nat>, s: string, order: seq<nat>)
    requires |part| == |w| && forall j :: 0 <= j < |w| ==> w[j] < |h| && part[j] == h[w[j]]
    requires forall i :: 0 <= i < |order| ==> order[i] < |w|
    ensures Legal(KV_MODEL, part, s, order) <==> Legal(KV_MODEL, h, s, Through(w, order))
    decreases |order|
  {
    if order != [] {
      var (_, s') := KvStep(s, part[order[0]].input, part[order[0]].output);
      LegalThrough(h, part, w, s', order[1..]);
      assert Through(w, order)[1..] == Through(w, order[1..]);
    }
  }

  /** Renaming positions keeps the operations apart and in time. */
  lemma ThroughKeeps(h: KvHistory, part: KvHistory, w: seq<nat>, order: seq<nat>)
    requires |part| == |w| && Apart(w) && forall j :: 0 <= j < |w| ==> w[j] < |h| && part[j] == h[w[j]]
    requires forall i :: 0 <= i < |order| ==> order[i] < |w|
    ensures Apart(order) <==> Apart(Through(w, order))
    ensures RespectsTime(part, order) <==> RespectsTime(h, Through(w, order))
  {
    var up := Through(w, order);
    forall i, j | 0 <= i < j < |order| ensures order[i] == order[j] <==> up[i] == up[j] {
    }
    forall i, j | 0 <= i < j < |order|
      ensures part[order[j]].ret < part[order[i]].call <==> h[up[j]].ret < h[up[i]].call
    {
      assert part[order[i]] == h[up[i]] && part[order[j]] == h[up[j]];
    }
    if RespectsTime(h, up) {
      forall i, j | 0 <= i < j < |order| ensures !(part[order[j]].ret < part[order[i]].call) {
        assert !(h[up[j]].ret < h[up[i]].call);
      }
    }
  }

  lemma PartOrderUp(h: KvHistory, key: string, w: seq<nat>, part: KvHistory, order: seq<nat>)
    requires Lists(h, key, |h|, w, part) && Linearization(KV_MODEL, part, order)
    ensures KeyOrder(h, key, Through(w, order))
  {
    hide Legal, RespectsTime, Apart;
    var up := Through(w, order);
    assert Apart(order) by {
      IsApart(order, |part|);
    }
    ThroughKeeps(h, part, w, order);
    LegalThrough(h, part, w, "", order);
    forall x | 0 <= x < |h| && h[x].input.key == key ensures x in up {
      assert x in w;
      var j :| 0 <= j < |w| && w[j] == x;
      assert j in order;
      var i :| 0 <= i < |order| && order[i] == j;
      assert up[i] == x;
    }
  }

  lemma IsApart(order: seq<nat>, n: nat)
    requires Permutation(order, n)
    ensures Apart(order)
  {
  }

  lemma PartOrderDown(h: KvHistory, key: string, w: seq<nat>, part: KvHistory, up: seq<nat>)
    requires Lists(h, key, |h|, w, part) && KeyOrder(h, key, up)
    ensures Linearizable(KV_MODEL, part)
  {
    hide Legal, RespectsTime;
    assert forall i :: 0 <= i < |up| ==> up[i] in w;
    var order := seq(|up|, i requires 0 <= i < |up| => IndexOf(w, up[i]));
    assert Through(w, order) == up;
    LegalThrough(h, part, w, "", order);
    ThroughKeeps(h, part, w, order);
    forall j | 0 <= j < |part| ensures j in order {
      assert w[j] in up;
      var i :| 0 <= i < |up| && up[i] == w[j];
      assert order[i] == j;
    }
    assert Linearization(KV_MODEL, part, order);
  }

  /** The part of a key is linearizable exactly if its operations, inside the whole history, have a legal order. */
  lemma PartIffKeyOrder(h: KvHistory, key: string)
    ensures Linearizable(KV_MODEL, Project(h, key, |h|)) <==> exists order :: KeyOrder(h, key, order)
  {
    hide Lists, KeyOrder, Linearization;
    var part, w := Project(h, key, |h|), Where(h, key, |h|);
    WhereAre(h, key, |h|);
    if Linearizable(KV_MODEL, part) {
      var order :| Linearization(KV_MODEL, part, order);
      InPart(order, part);
      assert |w| == |part| by {
        SameLength(h, key, w, part);
      }
      PartOrderUp(h, key, w, part, order);
    }
    if order :| KeyOrder(h, key, order) {
      PartOrderDown(h, key, w, part, order);
    }
  }

  lemma InPart(order: seq<nat>, part: KvHistory)
    requires Linearization(KV_MODEL, part, order)
    ensures forall i :: 0 <= i < |order| ==> order[i] < |part|
  {
  }

  lemma SameLength(h: KvHistory, key: string, w: seq<nat>, part: KvHistory)
    requires Lists(h, key, |h|, w, part)
    ensures |w| == |part|
  {
  }

  // ---------------------------------------------------------------- from the map to each key

  /** The operations on `key` in `order`. */
  function Filter(h: KvHistory, key: string, order: seq<nat>): seq<nat>
    requires forall i :: 0 <= i < |order| ==> order[i] < |h|
  {
    if order == [] then []
    else (if h[order[0]].input.key == key then [order[0]] else []) + Filter(h, key, order[1..])
  }

  ghost predicate InHistory(h: KvHistory, order: seq<nat>) {
    forall i :: 0 <= i < |order| ==> order[i] < |h|
  }

  lemma {:induction false} FilterHas(h: KvHistory, key: string, order: seq<nat>, x: nat)
    requires InHistory(h, order)
    ensures x in Filter(h, key, order) <==> x in order && x < |h| && h[x].input.key == key
    decreases |order|
  {
    if order != [] {
      FilterHas(h, key, order[1..], x);
      assert x in order <==> x == order[0] || x in order[1..];
    }
  }

  /** A prefix operation and the rest. */
  lemma Ahead(h: KvHistory, x: nat, rest: seq<nat>)
    requires x < |h| && InHistory(h, rest)
    ensures RespectsTime(h, [x] + rest) <==> RespectsTime(h, rest) && forall y :: y in rest ==> !(h[y].ret < h[x].call)
    ensures Apart([x] + rest) <==> Apart(rest) && x !in rest
  {
    var all := [x] + rest;
    if RespectsTime(h, all) {
      forall i, j | 0 <= i < j < |rest| ensures !(h[rest[j]].ret < h[rest[i]].call) {
        assert rest[i] == all[i + 1] && rest[j] == all[j + 1];
      }
      forall y | y in rest ensures !(h[y].ret < h[x].call) {
        var i :| 0 <= i < |rest| && rest[i] == y;
        assert all[i + 1] == y && all[0] == x;
      }
    }
    if Apart(all) {
      forall i, j | 0 <= i < j < |rest| ensures rest[i] != rest[j] {
        assert rest[i] == all[i + 1] && rest[j] == all[j + 1];
      }
      forall i | 0 <= i < |rest| ensures rest[i] != x {
        assert all[i + 1] == rest[i] && all[0] == x;
      }
    }
  }

  lemma {:induction false} FilterKeeps(h: KvHistory, key: string, order: seq<nat>)
    requires InHistory(h, order) && RespectsTime(h, order) && Apart(order)
    ensures var f := Filter(h, key, order);
            InHistory(h, f) && RespectsTime(h, f) && Apart(f) && forall i :: 0 <= i < |f| ==> h[f[i]].input.key == key
    decreases |order|
  {
    if order != [] {
      var x, rest := order[0], order[1..];
      assert order == [x] + rest;
      var f := Filter(h, key, rest);
      Ahead(h, x, rest);
      hide RespectsTime, Apart;
      FilterKeeps(h, key, rest);
      forall y | y in f ensures y in rest {
        FilterHas(h, key, rest, y);
      }
      Ahead(h, x, f);
    }
  }

  lemma {:induction false} FilterLegal(h: KvHistory, key: string, st: map<string, string>, order: seq<nat>)
    requires InHistory(h, order) && Legal(MAP_MODEL, h, st, order)
    ensures InHistory(h, Filter(h, key, order)) && Legal(KV_MODEL, h, Lookup(st, key), Filter(h, key, order))
    decreases |order|
  {
    if order != [] {
      var o := h[order[0]];
      var (ok, st') := MapStep(st, o.input, o.output);
      StepByKey(st, o.input, o.output, key);
      FilterLegal(h, key, st', order[1..]);
      if o.input.key == key {
        assert Filter(h, key, order)[1..] == Filter(h, key, order[1..]);
      } else {
        assert Filter(h, key, order) == Filter(h, key, order[1..]);
      }
    }
  }

  /** A linearization against the map, seen from one key. */
  lemma WholeToKey(h: KvHistory, order: seq<nat>, key: string)
    requires Linearization(MAP_MODEL, h, order)
    ensures KeyOrder(h, key, Filter(h, key, order))
  {
    IsApart(order, |h|);
    FilterKeeps(h, key, order);
    FilterLegal(h, key, map[], order);
    forall x | 0 <= x < |h| && h[x].input.key == key ensures x in Filter(h, key, order) {
      FilterHas(h, key, order, x);
    }
  }

  // ---------------------------------------------------------------- from every key to the map

  /** What is still to be done on one key, in a legal order. */
  ghost predicate Thread(h: KvHistory, done: set<nat>, s: string, key: string, rest: seq<nat>) {
    && (forall i :: 0 <= i < |rest| ==> rest[i] < |h| && rest[i] !in done && h[rest[i]].input.key == key)
    && Apart(rest) && RespectsTime(h, rest) && Legal(KV_MODEL, h, s, rest)
  }

  /** A legal order for every key that still has something to do. */
  ghost predicate Threads(h: KvHistory, done: set<nat>, st: map<string, string>, rest: map<string, seq<nat>>) {
    && (forall key :: key in rest ==> Thread(h, done, Lookup(st, key), key, rest[key]))
    && (forall x :: 0 <= x < |h| && x !in done ==> h[x].input.key in rest && x in rest[h[x].input.key])
  }

  /** Among the pending operations, one returns first. */
  lemma {:induction false} EarliestReturn(h: KvHistory, done: set<nat>, n: nat) returns (r: nat)
    requires n <= |h| && exists x: nat :: x < n && x !in done
    ensures r < n && r !in done && forall y :: 0 <= y < n && y !in done ==> h[r].ret <= h[y].ret
    decreases n
  {
    if exists x: nat :: x < n - 1 && x !in done {
      r := EarliestReturn(h, done, n - 1);
      if n - 1 !in done && h[n - 1].ret < h[r].ret {
        r := n - 1;
      }
    } else {
      r := n - 1;
    }
  }

  /** The head of the key that owns the earliest return may go first. */
  lemma HeadIsCandidate(h: KvHistory, done: set<nat>, st: map<string, string>, rest: map<string, seq<nat>>, r: nat)
    requires Threads(h, done, st, rest) && r < |h| && r !in done
    requires forall i :: 0 <= i < |h| ==> h[i].call < h[i].ret
    requires forall y :: 0 <= y < |h| && y !in done ==> h[r].ret <= h[y].ret
    ensures h[r].input.key in rest && var t := rest[h[r].input.key]; |t| > 0 && t[0] < |h| && Candidate(h, done, t[0])
  {
    var key := h[r].input.key;
    var t := rest[key];
    assert r in t;
    var i :| 0 <= i < |t| && t[i] == r;
    assert Thread(h, done, Lookup(st, key), key, t);
    forall y | 0 <= y < |h| && y !in done ensures !(h[y].ret < h[t[0]].call) {
      assert i > 0 ==> !(h[t[i]].ret < h[t[0]].call);
    }
  }

  /** The thread whose head is done. */
  lemma TailThread(h: KvHistory, done: set<nat>, s: string, key: string, x: nat, tail: seq<nat>)
    requires Thread(h, done, s, key, [x] + tail)
    ensures var (ok, s') := KvStep(s, h[x].input, h[x].output); ok && Thread(h, done + {x}, s', key, tail)
  {
    var t := [x] + tail;
    assert t[0] == x && t[1..] == tail;
    forall i | 0 <= i < |tail| ensures tail[i] < |h| && tail[i] !in done && h[tail[i]].input.key == key {
      assert tail[i] == t[i + 1];
    }
    Ahead(h, x, tail);
  }

  /** A thread of another key does not notice. */
  lemma OtherThread(h: KvHistory, done: set<nat>, s: string, key: string, rest: seq<nat>, x: nat)
    requires Thread(h, done, s, key, rest) && x < |h| && h[x].input.key != key
    ensures Thread(h, done + {x}, s, key, rest)
  {
    hide Apart, RespectsTime, Legal;
  }

  /** The head of a thread, and the thread behind it. */
  lemma HeadOfThread(h: KvHistory, done: set<nat>, st: map<string, string>, key: string, t: seq<nat>)
    requires Thread(h, done, Lookup(st, key), key, t) && |t| > 0
    ensures t[0] < |h| && h[t[0]].input.key == key
    ensures var (ok, st') := MapStep(st, h[t[0]].input, h[t[0]].output);
            ok && Thread(h, done + {t[0]}, Lookup(st', key), key, t[1..])
  {
    hide Apart, RespectsTime, Legal, KvStep, MapStep;
    assert t == [t[0]] + t[1..];
    TailThread(h, done, Lookup(st, key), key, t[0], t[1..]);
    StepByKey(st, h[t[0]].input, h[t[0]].output, key);
  }

  /** Doing the head of one thread leaves threads for everything else. */
  lemma NextThreads(h: KvHistory, done: set<nat>, st: map<string, string>, rest: map<string, seq<nat>>, key: string)
    requires Threads(h, done, st, rest) && key in rest && |rest[key]| > 0
    ensures var x := rest[key][0];
            && x < |h| && Accepts(MAP_MODEL, h, st, x)
            && var c := Succ(MAP_MODEL, h, Config(done, st), x);
                Threads(h, c.done, c.state, rest[key := rest[key][1..]])
  {
    hide Thread, MapStep;
    var t := rest[key];
    HeadOfThread(h, done, st, key, t);
    var x, st' := t[0], MapStep(st, h[t[0]].input, h[t[0]].output).1;
    var done', rest' := done + {x}, rest[key := t[1..]];
    forall k | k in rest' ensures Thread(h, done', Lookup(st', k), k, rest'[k]) {
      if k != key {
        StepByKey(st, h[x].input, h[x].output, k);
        OtherThread(h, done, Lookup(st, k), k, rest[k], x);
      }
    }
    forall y | 0 <= y < |h| && y !in done' ensures h[y].input.key in rest' && y in rest'[h[y].input.key] {
      assert y in rest[h[y].input.key];
      assert t == [x] + t[1..];
    }
  }

  lemma {:induction false} Merge(
    h: KvHistory, done: set<nat>, st: map<string, string>, rest: map<string, seq<nat>>) returns (order: seq<nat>)
    requires Threads(h, done, st, rest) && forall i :: 0 <= i < |h| ==> h[i].call < h[i].ret
    ensures Completes(MAP_MODEL, h, Config(done, st), order)
    decreases |Ids(|h|) - done|
  {
    hide Threads, Ids, Succ, Accepts, Candidate;
    if x: nat :| x < |h| && x !in done {
      var r := EarliestReturn(h, done, |h|);
      HeadIsCandidate(h, done, st, rest, r);
      var key := h[r].input.key;
      NextThreads(h, done, st, rest, key);
      var y := rest[key][0];
      var c := Succ(MAP_MODEL, h, Config(done, st), y);
      FewerLeft(h, done, st, y);
      var tail := Merge(h, c.done, c.state, rest[key := rest[key][1..]]);
      order := [y] + tail;
      assert order[1..] == tail;
    } else {
      order := [];
    }
  }

  lemma FewerLeft(h: KvHistory, done: set<nat>, st: map<string, string>, y: nat)
    requires Candidate(h, done, y)
    ensures |Ids(|h|) - Succ(MAP_MODEL, h, Config(done, st), y).done| < |Ids(|h|) - done|
  {
    hide Ids;
    InIds(|h|, y);
    assert Ids(|h|) - (done + {y}) == Ids(|h|) - done - {y};
  }

  // ---------------------------------------------------------------- the contract of Partition

  function KeysOf(h: KvHistory): set<string> {
    set i | 0 <= i < |h| :: h[i].input.key
  }

  ghost predicate AllPartsPass(h: KvHistory) {
    forall key :: key in KeysOf(h) ==> Linearizable(KV_MODEL, Project(h, key, |h|))
  }

  ghost function OrderFor(h: KvHistory, key: string): (order: seq<nat>)
    requires exists order :: KeyOrder(h, key, order)
    ensures KeyOrder(h, key, order)
  {
    var order :| KeyOrder(h, key, order); order
  }

  /** A legal order for each key makes threads for everything. */
  lemma StartThreads(h: KvHistory, rest: map<string, seq<nat>>)
    requires rest.Keys == KeysOf(h) && forall key :: key in rest ==> KeyOrder(h, key, rest[key])
    ensures Threads(h, {}, map[], rest)
  {
    hide Legal, RespectsTime, Apart;
    forall key | key in rest ensures Thread(h, {}, Lookup(map[], key), key, rest[key]) {
      assert KeyOrder(h, key, rest[key]);
    }
    forall x | 0 <= x < |h| ensures h[x].input.key in rest && x in rest[h[x].input.key] {
      assert h[x].input.key in KeysOf(h);
      assert KeyOrder(h, h[x].input.key, rest[h[x].input.key]);
    }
  }

  lemma KeysToWhole(h: KvHistory)
    requires AllPartsPass(h) && forall i :: 0 <= i < |h| ==> h[i].call < h[i].ret
    ensures Linearizable(MAP_MODEL, h)
  {
    hide KeyOrder, Threads, KeysOf, Completes, Arranges, RespectsTime, Legal;
    forall key | key in KeysOf(h) ensures exists order :: KeyOrder(h, key, order) {
      PartIffKeyOrder(h, key);
    }
    var rest := map key | key in KeysOf(h) :: OrderFor(h, key);
    StartThreads(h, rest);
    var order := Merge(h, {}, map[], rest);
    CompletionIsArrangement(MAP_MODEL, h, Config({}, map[]), order);
    ArrangesAll(h, order);
    assert Linearization(MAP_MODEL, h, order);
  }

  lemma ArrangesAll(h: KvHistory, order: seq<nat>)
    requires Arranges(h, {}, order)
    ensures Permutation(order, |h|)
  {
  }

  /** A history is linearizable exactly if each of its parts is. */
  lemma PartitionIsSound(h: KvHistory)
    requires forall i :: 0 <= i < |h| ==> h[i].call < h[i].ret
    ensures Linearizable(MAP_MODEL, h) <==> AllPartsPass(h)
  {
    if Linearizable(MAP_MODEL, h) {
      var order :| Linearization(MAP_MODEL, h, order);
      forall key | key in KeysOf(h) ensures Linearizable(KV_MODEL, Project(h, key, |h|)) {
        WholeToKey(h, order, key);
        PartIffKeyOrder(h, key);
      }
    }
    if AllPartsPass(h) {
      KeysToWhole(h);
    }
  }

  function PartOf(m: map<string, KvHistory>, key: string): KvHistory {
    if key in m then m[key] else []
  }

  /** One part for every key of the history, in any order of the keys. */
  method Partition(h: KvHistory) returns (parts: seq<KvHistory>, ghost keys: seq<string>)
    ensures |parts| == |keys| && forall i, j :: 0 <= i < j < |keys| ==> keys[i] != keys[j]
    ensures forall key :: key in keys <==> key in KeysOf(h)
    ensures forall i :: 0 <= i < |parts| ==> parts[i] == Project(h, keys[i], |h|)
    ensures forall key :: key in KeysOf(h) ==> Project(h, key, |h|) in parts
  {
    var m: map<string, KvHistory> := map[];
    for i := 0 to |h|
      invariant forall key :: key in m <==> key in KeysOf(h[..i])
      invariant forall key :: PartOf(m, key) == Project(h, key, i)
    {
      var key := h[i].input.key;
      ghost var before := m;
      m := m[key := PartOf(m, key) + [h[i]]];
      forall k ensures k in m <==> k in KeysOf(h[..i + 1]) {
        MoreKeys(h, i, k);
      }
      forall k ensures PartOf(m, k) == Project(h, k, i + 1) {
        assert PartOf(before, k) == Project(h, k, i);
      }
    }
    assert h[..|h|] == h;
    parts, keys := [], [];
    var left := m.Keys;
    while left != {}
      invariant left <= m.Keys && |parts| == |keys|
      invariant forall i, j :: 0 <= i < j < |keys| ==> keys[i] != keys[j]
      invariant forall key :: key in keys <==> key in m && key !in left
      invariant forall i :: 0 <= i < |parts| ==> parts[i] == Project(h, keys[i], |h|)
    {
      var key :| key in left;
      assert PartOf(m, key) == Project(h, key, |h|);
      parts, keys, left := parts + [m[key]], keys + [key], left - {key};
    }
  }

  lemma MoreKeys(h: KvHistory, i: nat, key: string)
    requires i < |h|
    ensures key in KeysOf(h[..i + 1]) <==> key in KeysOf(h[..i]) || key == h[i].input.key
  {
    if key in KeysOf(h[..i]) {
      var j :| 0 <= j < i && h[..i][j].input.key == key;
      assert h[..i + 1][j].input.key == key;
    }
    if key == h[i].input.key {
      assert h[..i + 1][i].input.key == key;
    }
    if key in KeysOf(h[..i + 1]) {
      var j :| 0 <= j < i + 1 && h[..i + 1][j].input.key == key;
      assert j < i ==> h[..i][j].input.key == key;
    }
  }
}
