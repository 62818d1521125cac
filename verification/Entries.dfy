/** From histories to sorted call and return entries, and from those to the linked list of nodes. */
module Entries {
  import opened History
  import opened EventList

  datatype Value<I, O> = NoValue | In(input: I) | Out(output: O)

  datatype Entry<I, O> = Entry(isReturn: bool, value: Value<I, O>, id: nat, time: int)

  /** The entries are exactly the calls and returns of `g`, whose times are their positions. */
  ghost predicate Reads<I, O>(es: seq<Entry<I, O>>, g: seq<Operation<I, O>>) {
    && |es| == 2 * |g|
    && (forall x :: 0 <= x < |g| ==>
          && 0 <= g[x].call < g[x].ret < |es|
          && IsCall(es[g[x].call], x, g[x].input) && IsReturn(es[g[x].ret], x, g[x].output))
    && (forall p :: 0 <= p < |es| ==>
        es[p].id < |g| && p == if es[p].isReturn then g[es[p].id].ret else g[es[p].id].call)
  }

  predicate IsCall<I(==), O(==)>(e: Entry<I, O>, id: nat, input: I) {
    !e.isReturn && e.value == In(input) && e.id == id
  }

  predicate IsReturn<I(==), O(==)>(e: Entry<I, O>, id: nat, output: O) {
    e.isReturn && e.value == Out(output) && e.id == id
  }

  /** Positions are distinct times. */
  lemma ReadsTimed<I, O>(es: seq<Entry<I, O>>, g: seq<Operation<I, O>>)
    requires Reads(es, g)
    ensures Timed(g)
  {
    forall i, j | 0 <= i < j < |g|
      ensures g[i].call != g[j].call && g[i].call != g[j].ret && g[i].ret != g[j].call && g[i].ret != g[j].ret
    {
      assert IsCall(es[g[i].call], i, g[i].input) && IsCall(es[g[j].call], j, g[j].input);
      assert IsReturn(es[g[i].ret], i, g[i].output) && IsReturn(es[g[j].ret], j, g[j].output);
    }
  }

  // ---------------------------------------------------------------- sorting

  ghost predicate Sorted<I, O>(es: seq<Entry<I, O>>) {
    forall i, j :: 0 <= i < j < |es| ==> es[i].time <= es[j].time
  }

  /** `es` is `raw`, rearranged by `perm`. */
  ghost predicate Rearranged<I, O>(raw: seq<Entry<I, O>>, es: seq<Entry<I, O>>, perm: seq<nat>) {
    && |es| == |raw| == |perm| && Permutation(perm, |raw|)
    && (forall k :: 0 <= k < |es| ==> es[k] == raw[perm[k]])
  }

  /** The place of the next entry among the sorted ones: behind all that are not later. */
  function PlaceOf<I, O>(es: seq<Entry<I, O>>, time: int): (k: nat)
    requires Sorted(es)
    ensures k <= |es|
    ensures forall i :: 0 <= i < k ==> es[i].time <= time
    ensures forall i :: k <= i < |es| ==> es[i].time > time
    decreases |es|
  {
    if es == [] || es[|es| - 1].time <= time then |es| else PlaceOf(es[..|es| - 1], time)
  }

  function InsertAt<T>(s: seq<T>, k: nat, v: T): seq<T>
    requires k <= |s|
  {
    s[..k] + [v] + s[k..]
  }

  lemma InsertedAt<T>(s: seq<T>, k: nat, v: T)
    requires k <= |s|
    ensures var r := InsertAt(s, k, v);
            && |r| == |s| + 1 && r[k] == v
            && (forall j :: 0 <= j < k ==> r[j] == s[j])
            && (forall j :: k < j < |r| ==> r[j] == s[j - 1])
  {
  }

  lemma InsertPermutation(perm: seq<nat>, n: nat, k: nat)
    requires Permutation(perm, n) && k <= |perm|
    ensures Permutation(InsertAt(perm, k, n), n + 1)
  {
    var r := InsertAt(perm, k, n);
    InsertedAt(perm, k, n);
    hide InsertAt;
    forall x | 0 <= x < n + 1 ensures x in r {
      if x == n {
        assert r[k] == n;
      } else {
        assert x in perm;
        var j :| 0 <= j < |perm| && perm[j] == x;
        assert r[if j < k then j else j + 1] == x;
      }
    }
  }

  lemma InsertRearranged<I, O>(raw: seq<Entry<I, O>>, n: nat, es: seq<Entry<I, O>>, perm: seq<nat>, k: nat)
    requires n < |raw| && Rearranged(raw[..n], es, perm) && k <= n
    ensures Rearranged(raw[..n + 1], InsertAt(es, k, raw[n]), InsertAt(perm, k, n))
  {
    InsertPermutation(perm, n, k);
    InsertedAt(perm, k, n);
    InsertedAt(es, k, raw[n]);
    hide InsertAt, Permutation;
    assert forall k :: 0 <= k < |perm| ==> perm[k] < n by {
      assert Permutation(perm, n);
    }
  }

  /** Sorts by time; entries of equal time may end up in either order. */
  method SortByTime<I, O>(raw: seq<Entry<I, O>>) returns (es: seq<Entry<I, O>>, ghost perm: seq<nat>)
    ensures Sorted(es) && Rearranged(raw, es, perm)
  {
    es, perm := [], [];
    for n := 0 to |raw|
      invariant Sorted(es) && Rearranged(raw[..n], es, perm)
    {
      var k := PlaceOf(es, raw[n].time);
      InsertRearranged(raw, n, es, perm, k);
      es, perm := InsertAt(es, k, raw[n]), InsertAt(perm, k, n);
    }
    assert raw[..|raw|] == raw;
  }

  // ---------------------------------------------------------------- entries of a history

  /** Call and return of each operation, in the order of the history. */
  ghost predicate Listed<I, O>(h: seq<Operation<I, O>>, raw: seq<Entry<I, O>>) {
    && |raw| == 2 * |h|
    && (forall x :: 0 <= x < |h| ==>
          && raw[2 * x] == Entry(false, In(h[x].input), x, h[x].call)
          && raw[2 * x + 1] == Entry(true, Out(h[x].output), x, h[x].ret))
  }

  /** The history told by positions in the sorted list. */
  ghost function Positional<I, O>(h: seq<Operation<I, O>>, perm: seq<nat>): seq<Operation<I, O>>
    requires Permutation(perm, 2 * |h|)
  {
    seq(|h|, x requires 0 <= x < |h| =>
        Operation(h[x].input, IndexOf(perm, 2 * x), h[x].output, IndexOf(perm, 2 * x + 1)))
  }

  /** Only returns and calls at the same instant can be put in an order the history does not have. */
  predicate NoTies<I, O>(h: seq<Operation<I, O>>) {
    forall i, j :: 0 <= i < |h| && 0 <= j < |h| ==> h[i].ret != h[j].call
  }

  lemma PositionalReads<I, O>(h: seq<Operation<I, O>>, raw: seq<Entry<I, O>>, es: seq<Entry<I, O>>, perm: seq<nat>)
    requires Listed(h, raw) && Rearranged(raw, es, perm) && Sorted(es)
    requires forall i :: 0 <= i < |h| ==> h[i].call < h[i].ret
    ensures Reads(es, Positional(h, perm))
  {
    var g := Positional(h, perm);
    forall x | 0 <= x < |h| ensures Placed(h, es, perm, x) {
      IsPlaced(h, raw, es, perm, x);
    }
    forall p | 0 <= p < |es|
      ensures es[p].id < |g| && p == if es[p].isReturn then g[es[p].id].ret else g[es[p].id].call
    {
      OwnPlace(h, raw, es, perm, p);
    }
    assert |es| == 2 * |g|;
    hide Positional, Rearranged, Listed, Sorted;
    forall x | 0 <= x < |g|
      ensures 0 <= g[x].call < g[x].ret < |es| && IsCall(es[g[x].call], x, g[x].input)
      ensures IsReturn(es[g[x].ret], x, g[x].output)
    {
      assert Placed(h, es, perm, x);
    }
  }

  lemma PositionalOrder<I, O>(h: seq<Operation<I, O>>, raw: seq<Entry<I, O>>, es: seq<Entry<I, O>>, perm: seq<nat>)
    requires Listed(h, raw) && Rearranged(raw, es, perm) && Sorted(es)
    requires forall i :: 0 <= i < |h| ==> h[i].call < h[i].ret
    ensures Refines(h, Positional(h, perm)) && (NoTies(h) ==> SameOrder(h, Positional(h, perm)))
  {
    var g := Positional(h, perm);
    forall i, j | 0 <= i < |h| && 0 <= j < |h| ensures PlacedInTime(h, g, i, j) {
      IsPlaced(h, raw, es, perm, i);
      IsPlaced(h, raw, es, perm, j);
      SortedTimes(es, g[i].ret, g[j].call);
    }
    hide Rearranged, Listed, Sorted, Positional;
    forall i | 0 <= i < |h| ensures h[i].input == g[i].input && h[i].output == g[i].output {
      assert PlacedInTime(h, g, i, i);
    }
    forall i, j | 0 <= i < |h| && 0 <= j < |h|
      ensures h[i].ret < h[j].call ==> g[i].ret < g[j].call
      ensures NoTies(h) && g[i].ret < g[j].call ==> h[i].ret < h[j].call
    {
      assert PlacedInTime(h, g, i, j);
    }
  }

  ghost predicate PlacedInTime<I, O>(h: seq<Operation<I, O>>, g: seq<Operation<I, O>>, i: nat, j: nat)
    requires |h| == |g| && i < |h| && j < |h|
  {
    && h[i].input == g[i].input && h[i].output == g[i].output
    && (h[i].ret < h[j].call ==> g[i].ret < g[j].call)
    && (g[i].ret < g[j].call ==> h[i].ret <= h[j].call)
  }

  lemma SortedTimes<I, O>(es: seq<Entry<I, O>>, i: nat, j: nat)
    requires Sorted(es) && i < |es| && j < |es| && i != j
    ensures es[i].time < es[j].time ==> i < j
    ensures i < j ==> es[i].time <= es[j].time
  {
  }

  /** The entries of operation `x` are where its positional times say. */
  ghost predicate Placed<I, O>(h: seq<Operation<I, O>>, es: seq<Entry<I, O>>, perm: seq<nat>, x: nat)
    requires Permutation(perm, 2 * |h|) && x < |h|
  {
    var o := Positional(h, perm)[x];
    && o.input == h[x].input && o.output == h[x].output && 0 <= o.call < o.ret < |es|
    && es[o.call] == Entry(false, In(h[x].input), x, h[x].call)
    && es[o.ret] == Entry(true, Out(h[x].output), x, h[x].ret)
  }

  lemma IsPlaced<I, O>(h: seq<Operation<I, O>>, raw: seq<Entry<I, O>>, es: seq<Entry<I, O>>, perm: seq<nat>, x: nat)
    requires Listed(h, raw) && Rearranged(raw, es, perm) && Sorted(es) && x < |h| && h[x].call < h[x].ret
    ensures Placed(h, es, perm, x)
  {
    var k, m := IndexOf(perm, 2 * x), IndexOf(perm, 2 * x + 1);
    assert es[k] == raw[2 * x] && es[m] == raw[2 * x + 1];
  }

  lemma OwnPlace<I, O>(h: seq<Operation<I, O>>, raw: seq<Entry<I, O>>, es: seq<Entry<I, O>>, perm: seq<nat>, p: nat)
    requires Listed(h, raw) && Rearranged(raw, es, perm) && p < |es|
    ensures es[p].id < |h|
    ensures var o := Positional(h, perm)[es[p].id]; p == if es[p].isReturn then o.ret else o.call
  {
    var x := perm[p] / 2;
    assert perm[p] == 2 * x || perm[p] == 2 * x + 1;
    assert raw[2 * x].id == x && raw[2 * x + 1].id == x;
    var k := IndexOf(perm, perm[p]);
    assert perm[k] == perm[p];
  }

  /** What sorting does to a history: nothing without ties; with ties, the list may be stricter than the history. */
  method MakeEntries<I, O>(h: seq<Operation<I, O>>) returns (es: seq<Entry<I, O>>, ghost g: seq<Operation<I, O>>)
    requires forall i :: 0 <= i < |h| ==> h[i].call < h[i].ret
    ensures Sorted(es) && |es| == 2 * |h|
    ensures Reads(es, g) && Refines(h, g) && (NoTies(h) ==> SameOrder(h, g))
  {
    var raw: seq<Entry<I, O>> := [];
    for id := 0 to |h|
      invariant Listed(h[..id], raw)
    {
      raw := raw + [Entry(false, In(h[id].input), id, h[id].call)] + [Entry(true, Out(h[id].output), id, h[id].ret)];
    }
    assert h[..|h|] == h;
    ghost var perm;
    es, perm := SortByTime(raw);
    PositionalReads(h, raw, es, perm);
    PositionalOrder(h, raw, es, perm);
    g := Positional(h, perm);
  }

  // ---------------------------------------------------------------- the linked list

  /** Links of `n` positions in a row. */
  function Line(n: nat): Links {
    Links(seq(n, i requires 0 <= i < n => if i + 1 < n then i + 1 else -1), seq(n, i requires 0 <= i < n => i - 1))
  }

  lemma LineChain(n: nat, pos: seq<nat>)
    requires n > 0 && |pos| == n && forall k :: 0 <= k < n ==> pos[k] == k
    ensures Chain(Line(n), pos, n)
  {
  }

  /** Puts `n` in front of `mark`, inside whatever list `mark` is in. */
  method InsertBefore<V>(n: Node<V>, mark: Node?<V>) returns (r: Node<V>)
    modifies n, mark, if mark == null then null else mark.prev
    ensures r == n
    ensures mark == null ==> n.next == old(n.next) && n.prev == old(n.prev)
    ensures mark != null && old(mark.prev) == null && n != mark ==>
              && n.next == mark && mark.prev == n && mark.next == old(mark.next) && n.prev == old(n.prev)
    ensures mark != null && old(mark.prev) != null && n != mark && old(mark.prev) != n && old(mark.prev) != mark ==>
              && n.next == mark && mark.prev == n && mark.next == old(mark.next)
              && n.prev == old(mark.prev) && n.prev.next == n && n.prev.prev == old(mark.prev.prev)
  {
    if mark != null {
      var beforeMark := mark.prev;
      mark.prev := n;
      n.next := mark;
      if beforeMark != null {
        n.prev := beforeMark;
        beforeMark.next := n;
      }
    }
    r := n;
  }

  /** What a row looks like from one of its nodes. */
  ghost predicate InRow<V>(nodes: seq<Node<V>>, i: nat, first: Node?<V>)
    requires i < |nodes|
    reads nodes
  {
    && nodes[i].next == NodeAt(nodes, i + 1)
    && nodes[i].prev == if i == 0 then first else NodeAt(nodes, i - 1)
  }

  ghost predicate RowLinks<V>(nodes: seq<Node<V>>, l: Links, i: nat)
    requires |l.next| == |l.prev| == |nodes| && i < |nodes|
  {
    && NodeAt(nodes, l.next[i]) == NodeAt(nodes, i + 1)
    && NodeAt(nodes, l.prev[i]) == if i == 0 then null else NodeAt(nodes, i - 1)
  }

  lemma RowShape<V>(nodes: seq<Node<V>>)
    ensures Shape(nodes, Line(|nodes|)) <==> forall i: nat :: i < |nodes| ==> InRow(nodes, i, null)
  {
    var n, l := |nodes|, Line(|nodes|);
    assert NodeAt(nodes, -1) == null == NodeAt(nodes, n);
    hide NodeAt;
    assert InRange(l, n);
    forall i: nat | i < n ensures RowLinks(nodes, l, i) {
    }
    hide Line, InRange;
    if Shape(nodes, l) {
      forall i: nat | i < n ensures InRow(nodes, i, null) {
        assert RowLinks(nodes, l, i);
      }
    }
    if forall i: nat :: i < n ==> InRow(nodes, i, null) {
      forall i | 0 <= i < n
        ensures nodes[i].next == NodeAt(nodes, l.next[i]) && nodes[i].prev == NodeAt(nodes, l.prev[i])
      {
        assert InRow(nodes, i, null) && RowLinks(nodes, l, i);
      }
    }
  }

  /** A row that now starts after `n` is a longer row. */
  lemma LongerRow<V>(n: Node<V>, nodes: seq<Node<V>>)
    requires n.prev == null && n.next == NodeAt(nodes, 0) && forall i: nat :: i < |nodes| ==> InRow(nodes, i, n)
    ensures forall i: nat :: i <= |nodes| ==> InRow([n] + nodes, i, null)
  {
    var all := [n] + nodes;
    forall i: nat ensures NodeAt(all, i + 1) == NodeAt(nodes, i) {
    }
    assert NodeAt(all, 0) == n;
    hide NodeAt;
    forall i: nat | i < |all| ensures InRow(all, i, null) {
      if i > 0 {
        assert all[i] == nodes[i - 1] && InRow(nodes, i - 1, n);
        assert NodeAt(all, i + 1) == NodeAt(nodes, i);
        assert i > 1 ==> NodeAt(all, i - 2 + 1) == NodeAt(nodes, i - 2);
      } else {
        assert NodeAt(all, 0 + 1) == NodeAt(nodes, 0);
      }
    }
  }

  /** A new node in front of a row of nodes makes a longer row. */
  method Prepend<V>(n: Node<V>, root: Node?<V>, ghost nodes: seq<Node<V>>) returns (r: Node<V>)
    requires Distinct(nodes) && Shape(nodes, Line(|nodes|)) && root == NodeAt(nodes, 0)
    requires n !in nodes && n.next == null && n.prev == null
    modifies n, nodes
    ensures r == n && Distinct([n] + nodes) && Shape([n] + nodes, Line(|nodes| + 1))
  {
    RowShape(nodes);
    assert root != null ==> root == nodes[0] && InRow(nodes, 0, null);
    hide Shape;
    r := InsertBefore(n, root);
    forall i: nat | i < |nodes| ensures InRow(nodes, i, n) {
      assert old(InRow(nodes, i, null));
    }
    LongerRow(n, nodes);
    RowShape([n] + nodes);
  }

  /** Node `k` carries entry `from + k`, and a call carries the node of its return. */
  ghost predicate Carries<I, O>(
    nodes: seq<Node<Value<I, O>>>, es: seq<Entry<I, O>>, g: seq<Operation<I, O>>, from: nat) {
    && Reads(es, g) && |nodes| + from == |es|
    && (forall k :: 0 <= k < |nodes| ==> nodes[k].id == es[from + k].id && nodes[k].value == es[from + k].value)
    && (forall k :: 0 <= k < |nodes| ==>
          nodes[k].mate == if es[from + k].isReturn then null else NodeAt(nodes, g[es[from + k].id].ret - from))
  }

  /** `mates` holds the return nodes built so far. */
  ghost predicate Mates<I, O>(
    mates: map<nat, Node<Value<I, O>>>, nodes: seq<Node<Value<I, O>>>, es: seq<Entry<I, O>>, g: seq<Operation<I, O>>,
    from: nat)
    requires Reads(es, g)
  {
    forall x: nat :: x < |g| && from <= g[x].ret ==> x in mates && mates[x] == NodeAt(nodes, g[x].ret - from)
  }

  /** One more node in front: the nodes behind it move up one place. */
  lemma CarriesMore<I, O>(
    n: Node<Value<I, O>>, nodes: seq<Node<Value<I, O>>>, es: seq<Entry<I, O>>, g: seq<Operation<I, O>>, from: nat)
    requires Carries(nodes, es, g, from + 1) && n.id == es[from].id && n.value == es[from].value
    requires n.mate == if es[from].isReturn then null else NodeAt(nodes, g[es[from].id].ret - from - 1)
    ensures Carries([n] + nodes, es, g, from)
  {
    var all := [n] + nodes;
    forall k | 0 <= k < |all|
      ensures all[k].mate == if es[from + k].isReturn then null else NodeAt(all, g[es[from + k].id].ret - from)
      ensures all[k].id == es[from + k].id && all[k].value == es[from + k].value
    {
      if k > 0 {
        assert all[k] == nodes[k - 1] && es[from + k] == es[from + 1 + (k - 1)];
      }
      assert !es[from + k].isReturn ==> g[es[from + k].id].call == from + k;
    }
  }

  /** The return entry of `x` is the only one with that id. */
  lemma OnlyReturn<I, O>(es: seq<Entry<I, O>>, g: seq<Operation<I, O>>, x: nat, p: nat)
    requires Reads(es, g) && x < |g| && p < |es|
    ensures 0 <= g[x].ret < |es| && (es[p].isReturn && es[p].id == x <==> p == g[x].ret)
  {
    assert IsReturn(es[g[x].ret], x, g[x].output);
  }

  lemma MatesMore<I, O>(
    mates: map<nat, Node<Value<I, O>>>, n: Node<Value<I, O>>, nodes: seq<Node<Value<I, O>>>,
    es: seq<Entry<I, O>>, g: seq<Operation<I, O>>, from: nat)
    requires Reads(es, g) && from < |es| && Mates(mates, nodes, es, g, from + 1) && |nodes| + from + 1 == |es|
    ensures Mates(if es[from].isReturn then mates[es[from].id := n] else mates, [n] + nodes, es, g, from)
  {
    hide Reads;
    var all := [n] + nodes;
    var mates' := if es[from].isReturn then mates[es[from].id := n] else mates;
    forall x: nat | x < |g| && from <= g[x].ret ensures x in mates' && mates'[x] == NodeAt(all, g[x].ret - from) {
      OnlyReturn(es, g, x, from);
    }
  }

  lemma MateReady<I, O>(
    mates: map<nat, Node<Value<I, O>>>, nodes: seq<Node<Value<I, O>>>, es: seq<Entry<I, O>>, g: seq<Operation<I, O>>,
    from: nat)
    requires Carries(nodes, es, g, from + 1) && Mates(mates, nodes, es, g, from + 1)
    ensures |nodes| + from + 1 == |es| && es[from].id < |g|
    ensures !es[from].isReturn ==>
              es[from].id in mates && mates[es[from].id] == NodeAt(nodes, g[es[from].id].ret - from - 1)
  {
    var x := es[from].id;
    assert !es[from].isReturn ==> g[x].call == from && from + 1 <= g[x].ret;
  }

  lemma NoNodes<I, O>(es: seq<Entry<I, O>>, g: seq<Operation<I, O>>)
    requires Reads(es, g)
    ensures var nodes: seq<Node<Value<I, O>>> := [];
            && Distinct(nodes) && Shape(nodes, Line(0)) && NodeAt(nodes, 0) == null
            && Carries(nodes, es, g, |es|) && Mates(map[], nodes, es, g, |es|)
  {
  }

  lemma FirstOfRow<V>(n: Node<V>, nodes: seq<Node<V>>)
    ensures NodeAt([n] + nodes, 0) == n
  {
  }

  /** Makes the node of entry `i` and puts it in front of those of the later entries. */
  method LinkEntry<I, O>(
    es: seq<Entry<I, O>>, ghost g: seq<Operation<I, O>>, i: nat,
    root: Node?<Value<I, O>>, mates: map<nat, Node<Value<I, O>>>, ghost nodes: seq<Node<Value<I, O>>>)
    returns (root': Node<Value<I, O>>, mates': map<nat, Node<Value<I, O>>>, ghost entry: Node<Value<I, O>>)
    requires Distinct(nodes) && Shape(nodes, Line(|nodes|)) && root == NodeAt(nodes, 0)
    requires Carries(nodes, es, g, i + 1) && Mates(mates, nodes, es, g, i + 1)
    modifies nodes
    ensures fresh(entry) && root' == entry && Distinct([entry] + nodes) && Shape([entry] + nodes, Line(|nodes| + 1))
    ensures Carries([entry] + nodes, es, g, i) && Mates(mates', [entry] + nodes, es, g, i)
  {
    MateReady(mates, nodes, es, g, i);
    hide Shape, Line, Reads, Mates, Carries;
    var e := es[i];
    var n;
    if e.isReturn {
      n := new Node(e.value, null, e.id);
      mates' := mates[e.id := n];
    } else {
      n := new Node(e.value, mates[e.id], e.id);
      mates' := mates;
    }
    CarriesMore(n, nodes, es, g, i);
    MatesMore(mates, n, nodes, es, g, i);
    entry := n;
    root' := Prepend(n, root, nodes);
  }

  /** Builds the list back to front, so that a call finds the node of its return. */
  method LinkEntries<I, O>(es: seq<Entry<I, O>>, ghost g: seq<Operation<I, O>>)
    returns (root: Node?<Value<I, O>>, ghost nodes: seq<Node<Value<I, O>>>)
    requires Reads(es, g)
    ensures fresh(nodes) && Distinct(nodes) && Shape(nodes, Line(|nodes|)) && root == NodeAt(nodes, 0)
    ensures Carries(nodes, es, g, 0)
  {
    hide Shape, Line, Carries, Mates, Reads, Distinct, NodeAt;
    NoNodes(es, g);
    root, nodes := null, [];
    var mates: map<nat, Node<Value<I, O>>> := map[];
    var i := |es|;
    while i > 0
      invariant 0 <= i <= |es|
      invariant fresh(nodes) && Distinct(nodes) && Shape(nodes, Line(|nodes|)) && root == NodeAt(nodes, 0)
      invariant Carries(nodes, es, g, i) && Mates(mates, nodes, es, g, i)
    {
      i := i - 1;
      ghost var entry;
      root, mates, entry := LinkEntry(es, g, i, root, mates, nodes);
      FirstOfRow(entry, nodes);
      nodes := [entry] + nodes;
    }
  }

  method Length<V>(first: Node?<V>, ghost nodes: seq<Node<V>>) returns (l: nat)
    requires Shape(nodes, Line(|nodes|)) && first == NodeAt(nodes, 0)
    ensures l == |nodes|
  {
    RowShape(nodes);
    l := 0;
    var n := first;
    while n != null
      invariant l <= |nodes| && n == NodeAt(nodes, l)
      decreases |nodes| - l
    {
      assert InRow(nodes, l, null);
      n := n.next;
      l := l + 1;
    }
  }
}
