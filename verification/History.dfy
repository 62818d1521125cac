/** Sequential models, concurrent histories, and what it means that one explains the other. */
module History {

  /** One completed call, from its invocation to its response. */
  datatype Operation<I, O> = Operation(input: I, call: int, output: O, ret: int)

  /** A deterministic sequential object: `step` says whether an output is right, and what state follows. */
  datatype Model<!S, !I, !O> = Model(init: S, step: (S, I, O) -> (bool, S))

  /** `order` lists the numbers below `n`, each once. */
  ghost predicate Permutation(order: seq<nat>, n: nat) {
    && (forall i :: 0 <= i < |order| ==> order[i] < n)
    && (forall i, j :: 0 <= i < j < |order| ==> order[i] != order[j])
    && (forall x :: 0 <= x < n ==> x in order)
  }

  /** Where `v` is in `order`. */
  ghost function IndexOf(order: seq<nat>, v: nat): (k: nat)
    requires v in order
    ensures k < |order| && order[k] == v
  {
    var k: nat :| k < |order| && order[k] == v; k
  }

  /** No operation is placed before one that had already returned when it was called. */
  ghost predicate RespectsTime<I, O>(h: seq<Operation<I, O>>, order: seq<nat>) {
    forall i, j :: 0 <= i < j < |order| && order[i] < |h| && order[j] < |h| ==>
      !(h[order[j]].ret < h[order[i]].call)
  }

  /** Executed one after the other from `s`, the operations all give the recorded outputs. */
  predicate Legal<S, I, O>(m: Model<S, I, O>, h: seq<Operation<I, O>>, s: S, order: seq<nat>)
    requires forall i :: 0 <= i < |order| ==> order[i] < |h|
  {
    order == [] ||
    var (ok, s') := m.step(s, h[order[0]].input, h[order[0]].output);
    ok && Legal(m, h, s', order[1..])
  }

  ghost predicate Linearization<S, I, O>(m: Model<S, I, O>, h: seq<Operation<I, O>>, order: seq<nat>) {
    Permutation(order, |h|) && RespectsTime(h, order) && Legal(m, h, m.init, order)
  }

  ghost predicate Linearizable<S, I, O>(m: Model<S, I, O>, h: seq<Operation<I, O>>) {
    exists order :: Linearization(m, h, order)
  }

  /** Every call comes before its return, and no two events share a time. */
  predicate Timed<I, O>(h: seq<Operation<I, O>>) {
    && (forall i :: 0 <= i < |h| ==> h[i].call < h[i].ret)
    && (forall i, j :: 0 <= i < j < |h| ==>
          h[i].call != h[j].call && h[i].call != h[j].ret && h[i].ret != h[j].call && h[i].ret != h[j].ret)
  }

  /** `g` has the operations of `h` and at least its real-time order. */
  ghost predicate Refines<I, O>(h: seq<Operation<I, O>>, g: seq<Operation<I, O>>) {
    && |h| == |g|
    && (forall i :: 0 <= i < |h| ==> h[i].input == g[i].input && h[i].output == g[i].output)
    && (forall i, j :: 0 <= i < |h| && 0 <= j < |h| && h[i].ret < h[j].call ==> g[i].ret < g[j].call)
  }

  /** The same operations, with the same operations overlapping. */
  ghost predicate SameOrder<I, O>(h: seq<Operation<I, O>>, g: seq<Operation<I, O>>) {
    Refines(h, g) && Refines(g, h)
  }

  lemma {:induction false} RefinesLegal<S, I, O>(
    m: Model<S, I, O>, h: seq<Operation<I, O>>, g: seq<Operation<I, O>>, s: S, order: seq<nat>)
    requires Refines(h, g) && forall i :: 0 <= i < |order| ==> order[i] < |h|
    ensures Legal(m, h, s, order) == Legal(m, g, s, order)
    decreases |order|
  {
    if order != [] {
      var (_, s') := m.step(s, h[order[0]].input, h[order[0]].output);
      RefinesLegal(m, h, g, s', order[1..]);
    }
  }

  /** A linearization of the stricter history is one of the history. */
  lemma RefinesSound<S, I, O>(m: Model<S, I, O>, h: seq<Operation<I, O>>, g: seq<Operation<I, O>>)
    requires Refines(h, g) && Linearizable(m, g)
    ensures Linearizable(m, h)
  {
    var order :| Linearization(m, g, order);
    RefinesLegal(m, h, g, m.init, order);
    assert Linearization(m, h, order);
  }

  /** Only the real-time order matters, not the times themselves. */
  lemma SameOrderSameVerdict<S, I, O>(m: Model<S, I, O>, h: seq<Operation<I, O>>, g: seq<Operation<I, O>>)
    requires SameOrder(h, g)
    ensures Linearizable(m, h) <==> Linearizable(m, g)
  {
    if Linearizable(m, h) {
      RefinesSound(m, g, h);
    }
    if Linearizable(m, g) {
      RefinesSound(m, h, g);
    }
  }
}
