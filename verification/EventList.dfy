/**
 The doubly linked list of events: nodes are taken out and put back in place,
 in stack order, as in Knuth's dancing links. The links are first described as
 numbers, then as pointers between nodes.
 */
module EventList {

  /** Which position comes after and before each position; -1 for none. */
  datatype Links = Links(next: seq<int>, prev: seq<int>)

  predicate InRange(l: Links, n: nat) {
    && |l.next| == n && |l.prev| == n
    && (forall i :: 0 <= i < n ==> -1 <= l.next[i] < n)
    && (forall i :: 0 <= i < n ==> -1 <= l.prev[i] < n)
  }

  /** Increasing positions below `n`. */
  predicate Positions(pos: seq<nat>, n: nat) {
    && (forall k :: 0 <= k < |pos| ==> pos[k] < n)
    && (forall j, k :: 0 <= j < k < |pos| ==> pos[j] < pos[k])
  }

  /** The list, followed from its first position, is `pos`. */
  ghost predicate Chain(l: Links, pos: seq<nat>, n: nat) {
    && InRange(l, n) && Positions(pos, n) && |pos| > 0
    && (forall j, k :: 0 <= j < k < |pos| && k == j + 1 ==> l.next[pos[j]] == pos[k] && l.prev[pos[k]] == pos[j])
    && l.next[pos[|pos| - 1]] == -1
  }

  /** `p` has a predecessor, and its neighbours point back at it. */
  predicate Seated(l: Links, p: nat, n: nat) {
    && InRange(l, n) && p < n && l.prev[p] >= 0 && l.prev[p] != p && l.next[p] != p
    && l.next[l.prev[p]] == p && (l.next[p] >= 0 ==> l.prev[l.next[p]] == p)
  }

  /** `p` taken out: its neighbours point past it, while it keeps its own links. */
  function Unlinked(l: Links, p: nat, n: nat): Links
    requires InRange(l, n) && p < n && l.prev[p] >= 0
  {
    Links(l.next[l.prev[p] := l.next[p]], if l.next[p] >= 0 then l.prev[l.next[p] := l.prev[p]] else l.prev)
  }

  /** `p` put back between the neighbours it remembers. */
  function Relinked(l: Links, p: nat, n: nat): Links
    requires InRange(l, n) && p < n && l.prev[p] >= 0
  {
    Links(l.next[l.prev[p] := p], if l.next[p] >= 0 then l.prev[l.next[p] := p] else l.prev)
  }

  /** Putting a position back restores every link. */
  lemma RelinkUndoesUnlink(l: Links, p: nat, n: nat)
    requires Seated(l, p, n)
    ensures var u := Unlinked(l, p, n); InRange(u, n) && u.prev[p] >= 0 && Relinked(u, p, n) == l
  {
    var u := Unlinked(l, p, n);
    assert Relinked(u, p, n).next == l.next && Relinked(u, p, n).prev == l.prev;
  }

  function Remove(pos: seq<nat>, k: nat): seq<nat>
    requires k < |pos|
  {
    pos[..k] + pos[k + 1..]
  }

  lemma RemoveAt(pos: seq<nat>, k: nat, n: nat)
    requires Positions(pos, n) && k < |pos|
    ensures var rest := Remove(pos, k);
            && |rest| == |pos| - 1 && Positions(rest, n)
            && (forall j :: 0 <= j < k ==> rest[j] == pos[j])
            && (forall j :: k <= j < |rest| ==> rest[j] == pos[j + 1])
  {
  }

  /** Taking out a position that is not the first takes exactly that one off the list. */
  lemma UnlinkChain(l: Links, pos: seq<nat>, k: nat, n: nat)
    requires Chain(l, pos, n) && 0 < k < |pos|
    ensures Seated(l, pos[k], n) && Chain(Unlinked(l, pos[k], n), Remove(pos, k), n)
  {
    var p, rest := pos[k], Remove(pos, k);
    RemoveAt(pos, k, n);
    hide Remove;
    assert l.prev[p] == pos[k - 1] && l.next[p] == if k + 1 < |pos| then pos[k + 1] else -1;
    var u := Unlinked(l, p, n);
    assert InRange(u, n);
    assert u.next == l.next[pos[k - 1] := l.next[p]] && (k + 1 < |pos| ==> u.prev == l.prev[pos[k + 1] := pos[k - 1]]);
    assert k + 1 == |pos| ==> u.prev == l.prev;
    hide Unlinked, InRange;
    forall i, j | 0 <= i < j < |rest| && j == i + 1 ensures u.next[rest[i]] == rest[j] && u.prev[rest[j]] == rest[i] {
      if j < k {
        assert rest[i] == pos[i] && rest[j] == pos[j];
      } else if i >= k {
        assert rest[i] == pos[i + 1] && rest[j] == pos[j + 1];
      } else {
        assert rest[i] == pos[k - 1] && rest[j] == pos[k + 1];
      }
    }
    assert rest[|rest| - 1] == if k == |pos| - 1 then pos[k - 1] else pos[|pos| - 1];
  }

  /** The list without the call at index `k` and its return at index `m`. */
  function Without(pos: seq<nat>, k: nat, m: nat): seq<nat>
    requires k < m < |pos|
  {
    Remove(Remove(pos, k), m - 1)
  }

  predicate Liftable(l: Links, p: nat, q: nat, n: nat) {
    && Seated(l, p, n) && q < n && InRange(Unlinked(l, p, n), n)
    && Seated(Unlinked(l, p, n), q, n) && InRange(Unlinked(Unlinked(l, p, n), q, n), n)
  }

  /** The call at `p` taken out, then its return at `q`. */
  function LiftedLinks(l: Links, p: nat, q: nat, n: nat): Links
    requires Liftable(l, p, q, n)
  {
    Unlinked(Unlinked(l, p, n), q, n)
  }

  lemma ChainPositions(l: Links, pos: seq<nat>, n: nat)
    requires Chain(l, pos, n)
    ensures InRange(l, n) && Positions(pos, n)
  {
  }

  lemma LiftChain(l: Links, pos: seq<nat>, k: nat, m: nat, n: nat)
    requires Chain(l, pos, n) && 0 < k < m < |pos|
    ensures Liftable(l, pos[k], pos[m], n) && Chain(LiftedLinks(l, pos[k], pos[m], n), Without(pos, k, m), n)
  {
    hide Chain, Unlinked, Remove;
    ChainPositions(l, pos, n);
    RemoveAt(pos, k, n);
    UnlinkChain(l, pos, k, n);
    var u := Unlinked(l, pos[k], n);
    ChainPositions(u, Remove(pos, k), n);
    UnlinkChain(u, Remove(pos, k), m - 1, n);
    ChainPositions(Unlinked(u, pos[m], n), Without(pos, k, m), n);
  }

  // ---------------------------------------------------------------- the nodes

  class Node<V> {
    const value: V
    const mate: Node?<V>
    const id: nat
    var next: Node?<V>
    var prev: Node?<V>

    /** An unlinked node; a call carries the node of its return. */
    constructor (value: V, mate: Node?<V>, id: nat)
      ensures this.value == value && this.mate == mate && this.id == id && next == null && prev == null
    {
      this.value, this.mate, this.id, next, prev := value, mate, id, null, null;
    }
  }

  ghost predicate Distinct<V>(all: seq<Node<V>>) {
    forall i, j :: 0 <= i < j < |all| ==> all[i] != all[j]
  }

  ghost function NodeAt<V>(all: seq<Node<V>>, p: int): Node?<V> {
    if 0 <= p < |all| then all[p] else null
  }

  ghost predicate NextShape<V>(all: seq<Node<V>>, next: seq<int>)
    reads all
  {
    |next| == |all| && forall i :: 0 <= i < |all| ==> all[i].next == NodeAt(all, next[i])
  }

  ghost predicate PrevShape<V>(all: seq<Node<V>>, prev: seq<int>)
    reads all
  {
    |prev| == |all| && forall i :: 0 <= i < |all| ==> all[i].prev == NodeAt(all, prev[i])
  }

  /** The nodes point at one another as the links say. */
  ghost predicate Shape<V>(all: seq<Node<V>>, l: Links)
    reads all
  {
    InRange(l, |all|) && NextShape(all, l.next) && PrevShape(all, l.prev)
  }

  method SetNext<V>(x: Node<V>, y: Node?<V>, ghost all: seq<Node<V>>, ghost l: Links, ghost p: nat, ghost q: int)
    requires Distinct(all) && Shape(all, l) && p < |all| && x == all[p] && -1 <= q < |all| && y == NodeAt(all, q)
    modifies x`next
    ensures Shape(all, l.(next := l.next[p := q]))
  {
    x.next := y;
  }

  method SetPrev<V>(x: Node<V>, y: Node?<V>, ghost all: seq<Node<V>>, ghost l: Links, ghost p: nat, ghost q: int)
    requires Distinct(all) && Shape(all, l) && p < |all| && x == all[p] && -1 <= q < |all| && y == NodeAt(all, q)
    modifies x`prev
    ensures Shape(all, l.(prev := l.prev[p := q]))
  {
    x.prev := y;
  }

  method Unlink<V>(x: Node<V>, ghost all: seq<Node<V>>, ghost l: Links, ghost p: nat)
    requires Distinct(all) && Shape(all, l) && Seated(l, p, |all|) && x == all[p]
    modifies all
    ensures Shape(all, Unlinked(l, p, |all|))
  {
    ghost var a, b := l.prev[p], l.next[p];
    ghost var u := l.(next := l.next[a := b]);
    assert InRange(u, |all|) && u.next[p] == b && u.prev[p] == a;
    assert Unlinked(l, p, |all|) == if b >= 0 then u.(prev := l.prev[b := a]) else u;
    hide Distinct, InRange, Unlinked;
    SetNext(x.prev, x.next, all, l, a, b);
    if x.next != null {
      SetPrev(x.next, x.prev, all, u, b, a);
    }
  }

  method Relink<V>(x: Node<V>, ghost all: seq<Node<V>>, ghost l: Links, ghost p: nat)
    requires Distinct(all) && Seated(l, p, |all|) && x == all[p] && Shape(all, Unlinked(l, p, |all|))
    modifies all
    ensures Shape(all, l)
  {
    RelinkUndoesUnlink(l, p, |all|);
    hide Distinct;
    ghost var u, a, b := Unlinked(l, p, |all|), l.prev[p], l.next[p];
    SetNext(x.prev, x, all, u, a, p);
    if x.next != null {
      SetPrev(x.next, x, all, u.(next := u.next[a := p]), b, p);
    }
  }

  /** Takes a call and its return out of the list. */
  method Lift<V>(entry: Node<V>, ghost all: seq<Node<V>>, ghost l: Links, ghost p: nat, ghost q: nat)
    requires Distinct(all) && Shape(all, l) && Liftable(l, p, q, |all|)
    requires entry == all[p] && entry.mate == all[q]
    modifies all
    ensures Shape(all, LiftedLinks(l, p, q, |all|))
  {
    hide Distinct, Shape;
    Unlink(entry, all, l, p);
    Unlink(entry.mate, all, Unlinked(l, p, |all|), q);
  }

  /** Puts them back: every link of every node is again what it was before the lift. */
  method Unlift<V>(entry: Node<V>, ghost all: seq<Node<V>>, ghost l: Links, ghost p: nat, ghost q: nat)
    requires Distinct(all) && Liftable(l, p, q, |all|) && Shape(all, LiftedLinks(l, p, q, |all|))
    requires entry == all[p] && entry.mate == all[q]
    modifies all
    ensures Shape(all, l)
  {
    hide Distinct, Shape;
    Relink(entry.mate, all, Unlinked(l, p, |all|), q);
    Relink(entry, all, l, p);
  }
}
