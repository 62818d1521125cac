/**
 The search behind the checker, without its data structures: which operations
 may be linearized next, which configurations are dead, and why pruning a
 configuration seen before is sound.
 */
module Search {
  import opened History

  /** Operations linearized so far, and the state they lead to. */
  datatype Config<S> = Config(done: set<nat>, state: S)

  /** `x` is pending and no other pending operation returned before it was called. */
  ghost predicate Candidate<I, O>(h: seq<Operation<I, O>>, done: set<nat>, x: nat) {
    && x < |h| && x !in done
    && forall y :: 0 <= y < |h| && y !in done ==> !(h[y].ret < h[x].call)
  }

  function Accepts<S, I, O>(m: Model<S, I, O>, h: seq<Operation<I, O>>, s: S, x: nat): bool
    requires x < |h|
  {
    m.step(s, h[x].input, h[x].output).0
  }

  function Succ<S, I, O>(m: Model<S, I, O>, h: seq<Operation<I, O>>, c: Config<S>, x: nat): Config<S>
    requires x < |h|
  {
    Config(c.done + {x}, m.step(c.state, h[x].input, h[x].output).1)
  }

  /** `x` may be linearized next from `c`. */
  ghost predicate Move<S, I, O>(m: Model<S, I, O>, h: seq<Operation<I, O>>, c: Config<S>, x: nat) {
    Candidate(h, c.done, x) && Accepts(m, h, c.state, x)
  }

  ghost predicate Full<I, O>(h: seq<Operation<I, O>>, done: set<nat>) {
    forall x :: 0 <= x < |h| ==> x in done
  }

  /** Linearizing `rest` in this order finishes the history from `c`. */
  ghost predicate Completes<S, I, O>(m: Model<S, I, O>, h: seq<Operation<I, O>>, c: Config<S>, rest: seq<nat>)
    decreases |rest|
  {
    if rest == [] then Full(h, c.done)
    else Move(m, h, c, rest[0]) && Completes(m, h, Succ(m, h, c, rest[0]), rest[1..])
  }

  ghost predicate Dead<S, I, O>(m: Model<S, I, O>, h: seq<Operation<I, O>>, c: Config<S>) {
    forall rest :: !Completes(m, h, c, rest)
  }

  /** A configuration that is not final is dead once every move from it leads to a dead one. */
  lemma DeadEnd<S, I, O>(m: Model<S, I, O>, h: seq<Operation<I, O>>, c: Config<S>)
    requires !Full(h, c.done)
    requires forall x: nat :: Move(m, h, c, x) ==> Dead(m, h, Succ(m, h, c, x))
    ensures Dead(m, h, c)
  {
    forall rest ensures !Completes(m, h, c, rest) {
      if rest != [] && Move(m, h, c, rest[0]) {
        assert Dead(m, h, Succ(m, h, c, rest[0]));
      }
    }
  }

  // ---------------------------------------------------------------- completions are linearizations

  /** `rest` arranges the operations not yet done. */
  ghost predicate Arranges<I, O>(h: seq<Operation<I, O>>, done: set<nat>, rest: seq<nat>) {
    && (forall i :: 0 <= i < |rest| ==> rest[i] < |h| && rest[i] !in done)
    && (forall i, j :: 0 <= i < j < |rest| ==> rest[i] != rest[j])
    && (forall x :: 0 <= x < |h| ==> x in done || x in rest)
  }

  lemma {:induction false} CompletionIsArrangement<S, I, O>(
    m: Model<S, I, O>, h: seq<Operation<I, O>>, c: Config<S>, rest: seq<nat>)
    requires Completes(m, h, c, rest)
    ensures Arranges(h, c.done, rest) && RespectsTime(h, rest) && Legal(m, h, c.state, rest)
    decreases |rest|
  {
    if rest != [] {
      var x, d, tail := rest[0], Succ(m, h, c, rest[0]), rest[1..];
      CompletionIsArrangement(m, h, d, tail);
      forall i | 0 <= i < |rest| ensures rest[i] < |h| && rest[i] !in c.done && (i > 0 ==> rest[i] != x) {
        if i > 0 {
          assert rest[i] == tail[i - 1];
        }
      }
      forall i, j | 0 <= i < j < |rest| ensures rest[i] != rest[j] && !(h[rest[j]].ret < h[rest[i]].call) {
        if i > 0 {
          assert rest[i] == tail[i - 1] && rest[j] == tail[j - 1];
        }
      }
      forall y | 0 <= y < |h| && y !in c.done ensures y in rest {
        assert y in d.done || y in tail;
      }
    }
  }

  lemma {:induction false} ArrangementCompletes<S, I, O>(
    m: Model<S, I, O>, h: seq<Operation<I, O>>, c: Config<S>, rest: seq<nat>)
    requires Arranges(h, c.done, rest) && RespectsTime(h, rest) && Legal(m, h, c.state, rest)
    requires forall i :: 0 <= i < |h| ==> h[i].call < h[i].ret
    ensures Completes(m, h, c, rest)
    decreases |rest|
  {
    if rest != [] {
      var x, d, tail := rest[0], Succ(m, h, c, rest[0]), rest[1..];
      forall y | 0 <= y < |h| && y !in c.done ensures !(h[y].ret < h[x].call) {
        var j :| 0 <= j < |rest| && rest[j] == y;
      }
      forall y | 0 <= y < |h| ensures y in d.done || y in tail {
        if y !in c.done && y != x {
          var j :| 0 <= j < |rest| && rest[j] == y;
          assert y == tail[j - 1];
        }
      }
      ArrangementCompletes(m, h, d, tail);
    }
  }

  /** The whole search problem: some completion from the initial configuration, exactly if linearizable. */
  lemma LinearizableIffAlive<S, I, O>(m: Model<S, I, O>, h: seq<Operation<I, O>>)
    requires forall i :: 0 <= i < |h| ==> h[i].call < h[i].ret
    ensures Linearizable(m, h) <==> !Dead(m, h, Config({}, m.init))
  {
    var c := Config({}, m.init);
    forall order | Linearization(m, h, order) ensures Completes(m, h, c, order) {
      ArrangementCompletes(m, h, c, order);
    }
    forall rest | Completes(m, h, c, rest) ensures Linearization(m, h, rest) {
      CompletionIsArrangement(m, h, c, rest);
    }
  }

  // ---------------------------------------------------------------- depth-first search with memory

  function Done(ops: seq<nat>): set<nat> { set x | x in ops }

  /** The configuration after the first `d` operations of the current branch. */
  function At<S>(ops: seq<nat>, states: seq<S>, d: nat): Config<S>
    requires d <= |ops| && |states| == |ops| + 1
  {
    Config(Done(ops[..d]), states[d])
  }

  /** The branch being explored: legal moves from the initial configuration. */
  ghost predicate Branch<S, I, O>(m: Model<S, I, O>, h: seq<Operation<I, O>>, ops: seq<nat>, states: seq<S>) {
    && |states| == |ops| + 1 && states[0] == m.init
    && (forall d :: 0 <= d < |ops| ==>
          Move(m, h, At(ops, states, d), ops[d]) && At(ops, states, d + 1) == Succ(m, h, At(ops, states, d), ops[d]))
  }

  /** Every move from `c` called before `bound` leads to a dead configuration. */
  ghost predicate Explored<S, I, O>(m: Model<S, I, O>, h: seq<Operation<I, O>>, c: Config<S>, bound: int) {
    forall y: nat :: Move(m, h, c, y) && h[y].call < bound ==> Dead(m, h, Succ(m, h, c, y))
  }

  ghost predicate OnBranch<S(!new)>(ops: seq<nat>, states: seq<S>, c: Config<S>)
    requires |states| == |ops| + 1
  {
    exists d: nat :: d <= |ops| && c == At(ops, states, d)
  }

  /** Everything remembered is dead or on the current branch; `bound` is how far the current level is explored. */
  ghost predicate SearchInv<S(!new), I, O>(
    m: Model<S, I, O>, h: seq<Operation<I, O>>, ops: seq<nat>, states: seq<S>, known: set<Config<S>>, bound: int)
  {
    && Branch(m, h, ops, states)
    && (forall d :: 0 <= d < |ops| ==> Explored(m, h, At(ops, states, d), h[ops[d]].call))
    && Explored(m, h, At(ops, states, |ops|), bound)
    && (forall c :: c in known ==> Dead(m, h, c) || OnBranch(ops, states, c))
  }

  /** No pending operation is called from `lo` up to `hi`. */
  ghost predicate NoCalls<I, O>(h: seq<Operation<I, O>>, done: set<nat>, lo: int, hi: int) {
    forall y :: 0 <= y < |h| && y !in done ==> !(lo <= h[y].call < hi)
  }

  /** The candidate `x` is no use, so the search moves on to the next event. */
  lemma AdvanceKeeps<S(!new), I, O>(
    m: Model<S, I, O>, h: seq<Operation<I, O>>, ops: seq<nat>, states: seq<S>, known: set<Config<S>>, x: nat,
    bound: int)
    requires x < |h| && SearchInv(m, h, ops, states, known, h[x].call) && x !in ops && Timed(h)
    requires !Accepts(m, h, states[|ops|], x) || Succ(m, h, At(ops, states, |ops|), x) in known
    requires NoCalls(h, Done(ops), h[x].call + 1, bound)
    ensures SearchInv(m, h, ops, states, known, bound)
  {
    var c := At(ops, states, |ops|);
    assert ops[..|ops|] == ops;
    if Succ(m, h, c, x) in known {
      assert x in Succ(m, h, c, x).done;
      assert !OnBranch(ops, states, Succ(m, h, c, x));
    }
    forall y: nat | Move(m, h, c, y) && h[y].call < bound ensures Dead(m, h, Succ(m, h, c, y)) {
      if h[y].call >= h[x].call {
        assert y == x;
      }
    }
  }

  /** The candidate `x` leads to a new configuration, which the search enters. */
  lemma PushKeeps<S(!new), I, O>(
    m: Model<S, I, O>, h: seq<Operation<I, O>>, ops: seq<nat>, states: seq<S>, known: set<Config<S>>, x: nat,
    bound: int)
    requires x < |h| && SearchInv(m, h, ops, states, known, h[x].call)
    requires Move(m, h, At(ops, states, |ops|), x)
    requires forall y :: 0 <= y < |h| && y !in Done(ops) + {x} ==> h[y].call >= bound
    ensures var next := Succ(m, h, At(ops, states, |ops|), x);
            SearchInv(m, h, ops + [x], states + [next.state], known + {next}, bound)
  {
    var c := At(ops, states, |ops|);
    var next := Succ(m, h, c, x);
    var ops', states' := ops + [x], states + [next.state];
    forall d: nat | d <= |ops| ensures At(ops', states', d) == At(ops, states, d) {
      assert ops'[..d] == ops[..d];
    }
    assert ops'[..|ops'|] == ops' && ops[..|ops|] == ops;
    assert At(ops', states', |ops'|) == next;
    forall b | b in known + {next} ensures Dead(m, h, b) || OnBranch(ops', states', b) {
      if b in known && !Dead(m, h, b) {
        var d: nat :| d <= |ops| && b == At(ops, states, d);
        assert b == At(ops', states', d);
      }
    }
  }

  /** Once no candidate is left, the configuration is dead. */
  lemma Exhausted<S(!new), I, O>(
    m: Model<S, I, O>, h: seq<Operation<I, O>>, ops: seq<nat>, states: seq<S>, known: set<Config<S>>, r: nat)
    requires r < |h| && r !in ops && SearchInv(m, h, ops, states, known, h[r].ret) && Timed(h)
    ensures Dead(m, h, At(ops, states, |ops|))
  {
    var c := At(ops, states, |ops|);
    assert ops[..|ops|] == ops;
    forall x: nat | Move(m, h, c, x) ensures Dead(m, h, Succ(m, h, c, x)) {
      assert !(h[r].ret < h[x].call);
      assert h[r].ret != h[x].call;
    }
    DeadEnd(m, h, c);
  }

  /** The search leaves a dead configuration and resumes after the operation that led to it. */
  lemma PopKeeps<S(!new), I, O>(
    m: Model<S, I, O>, h: seq<Operation<I, O>>, ops: seq<nat>, states: seq<S>, known: set<Config<S>>, bound: int)
    requires |ops| > 0 && Branch(m, h, ops, states) && Dead(m, h, At(ops, states, |ops|)) && Timed(h)
    requires forall d :: 0 <= d < |ops| ==> Explored(m, h, At(ops, states, d), h[ops[d]].call)
    requires forall c :: c in known ==> Dead(m, h, c) || OnBranch(ops, states, c)
    requires NoCalls(h, Done(ops[..|ops| - 1]), h[ops[|ops| - 1]].call + 1, bound)
    ensures SearchInv(m, h, ops[..|ops| - 1], states[..|ops|], known, bound)
  {
    var k := |ops| - 1;
    var x, ops', states' := ops[k], ops[..k], states[..|ops|];
    forall d: nat | d <= k ensures At(ops', states', d) == At(ops, states, d) {
      assert ops'[..d] == ops[..d];
    }
    var c := At(ops, states, k);
    assert ops'[..k] == ops';
    assert At(ops', states', |ops'|) == c && Explored(m, h, c, h[x].call);
    forall y: nat | Move(m, h, c, y) && h[y].call < bound ensures Dead(m, h, Succ(m, h, c, y)) {
      if h[y].call >= h[x].call {
        assert y == x;
        assert At(ops, states, k + 1) == Succ(m, h, c, x);
      }
    }
    forall b | b in known ensures Dead(m, h, b) || OnBranch(ops', states', b) {
      if !Dead(m, h, b) {
        var d: nat :| d <= |ops| && b == At(ops, states, d);
        assert b == At(ops', states', d);
      }
    }
  }

  /** A branch that has linearized everything is a linearization. */
  lemma {:induction false} BranchCompletes<S, I, O>(
    m: Model<S, I, O>, h: seq<Operation<I, O>>, ops: seq<nat>, states: seq<S>, d: nat)
    requires Branch(m, h, ops, states) && d <= |ops| && Full(h, Done(ops))
    ensures Completes(m, h, At(ops, states, d), ops[d..])
    decreases |ops| - d
  {
    if d == |ops| {
      assert ops[..d] == ops && ops[d..] == [];
    } else {
      BranchCompletes(m, h, ops, states, d + 1);
      assert ops[d..][0] == ops[d] && ops[d..][1..] == ops[d + 1..];
    }
  }

  // ---------------------------------------------------------------- termination

  function Ids(n: nat): set<nat> {
    if n == 0 then {} else Ids(n - 1) + {n - 1}
  }

  lemma {:induction false} InIds(n: nat, x: nat)
    ensures x in Ids(n) <==> x < n
    decreases n
  {
    if n > 0 {
      InIds(n - 1, x);
    }
  }

  /** Configurations at most `k` moves away from the start; there are finitely many. */
  ghost function Reach<S, I, O>(m: Model<S, I, O>, h: seq<Operation<I, O>>, k: nat): set<Config<S>> {
    if k == 0 then {Config({}, m.init)}
    else Reach(m, h, k - 1) + NextConfigs(m, h, Reach(m, h, k - 1))
  }

  ghost function NextConfigs<S, I, O>(
    m: Model<S, I, O>, h: seq<Operation<I, O>>, from: set<Config<S>>): set<Config<S>> {
    set c, x | c in from && x in Ids(|h|) && x < |h| :: Succ(m, h, c, x)
  }

  lemma ReachStep<S, I, O>(m: Model<S, I, O>, h: seq<Operation<I, O>>, k: nat, c: Config<S>, x: nat)
    requires c in Reach(m, h, k) && x < |h|
    ensures Succ(m, h, c, x) in Reach(m, h, k + 1)
  {
    hide Succ, Ids;
    InIds(|h|, x);
  }

  lemma BranchStart<S, I, O>(m: Model<S, I, O>, h: seq<Operation<I, O>>, ops: seq<nat>, states: seq<S>)
    requires Branch(m, h, ops, states)
    ensures At(ops, states, 0) in Reach(m, h, 0)
  {
    assert Done(ops[..0]) == {};
  }

  lemma {:induction false} BranchReached<S, I, O>(
    m: Model<S, I, O>, h: seq<Operation<I, O>>, ops: seq<nat>, states: seq<S>, d: nat)
    requires Branch(m, h, ops, states) && d <= |ops|
    ensures At(ops, states, d) in Reach(m, h, d)
    decreases d
  {
    hide Branch, At, Succ, Reach;
    if d == 0 {
      BranchStart(m, h, ops, states);
    } else {
      BranchStep(m, h, ops, states, d - 1);
      BranchReached(m, h, ops, states, d - 1);
      ReachStep(m, h, d - 1, At(ops, states, d - 1), ops[d - 1]);
    }
  }

  lemma {:induction false} ReachGrows<S, I, O>(m: Model<S, I, O>, h: seq<Operation<I, O>>, j: nat, k: nat)
    requires j <= k
    ensures Reach(m, h, j) <= Reach(m, h, k)
    decreases k
  {
    if j < k {
      ReachGrows(m, h, j, k - 1);
    }
  }

  /** A branch never has more moves than there are operations. */
  lemma BranchBounded<S, I, O>(m: Model<S, I, O>, h: seq<Operation<I, O>>, ops: seq<nat>, states: seq<S>)
    requires Branch(m, h, ops, states)
    ensures |ops| <= |h|
  {
    DoneSize(m, h, ops, states, |ops|);
    assert ops[..|ops|] == ops;
    forall x | x in Done(ops) ensures x in Ids(|h|) {
      var d :| 0 <= d < |ops| && ops[d] == x;
      assert Move(m, h, At(ops, states, d), ops[d]);
      InIds(|h|, x);
    }
    IdsSize(|h|);
    SubsetSize(Done(ops), Ids(|h|));
  }

  lemma DoneStep(ops: seq<nat>, d: nat)
    requires d < |ops|
    ensures Done(ops[..d + 1]) == Done(ops[..d]) + {ops[d]}
  {
    assert ops[..d + 1] == ops[..d] + [ops[d]];
  }

  lemma BranchStep<S, I, O>(m: Model<S, I, O>, h: seq<Operation<I, O>>, ops: seq<nat>, states: seq<S>, d: nat)
    requires Branch(m, h, ops, states) && d < |ops|
    ensures |states| == |ops| + 1 && ops[d] < |h| && ops[d] !in Done(ops[..d])
    ensures At(ops, states, d + 1) == Succ(m, h, At(ops, states, d), ops[d])
  {
    assert Move(m, h, At(ops, states, d), ops[d]);
  }

  lemma {:induction false} DoneSize<S, I, O>(
    m: Model<S, I, O>, h: seq<Operation<I, O>>, ops: seq<nat>, states: seq<S>, d: nat)
    requires Branch(m, h, ops, states) && d <= |ops|
    ensures |Done(ops[..d])| == d
    decreases d
  {
    if d == 0 {
      assert Done(ops[..0]) == {};
    } else {
      hide Branch, Done;
      DoneSize(m, h, ops, states, d - 1);
      BranchStep(m, h, ops, states, d - 1);
      DoneStep(ops, d - 1);
    }
  }

  lemma {:induction false} IdsSize(n: nat)
    ensures |Ids(n)| == n
  {
    if n > 0 {
      IdsSize(n - 1);
      InIds(n - 1, n - 1);
    }
  }

  lemma {:induction false} SubsetSize<T>(a: set<T>, b: set<T>)
    requires a <= b
    ensures |a| <= |b|
  {
    if a != {} {
      var x :| x in a;
      SubsetSize(a - {x}, b - {x});
    }
  }

  /** Entering a configuration not seen before uses up one of the finitely many. */
  lemma FewerUnknown<S(!new), I, O>(
    m: Model<S, I, O>, h: seq<Operation<I, O>>, ops: seq<nat>, states: seq<S>, known: set<Config<S>>, x: nat)
    requires Branch(m, h, ops, states) && Move(m, h, At(ops, states, |ops|), x)
    requires var next := Succ(m, h, At(ops, states, |ops|), x);
            next !in known && Branch(m, h, ops + [x], states + [next.state])
    ensures var next := Succ(m, h, At(ops, states, |ops|), x);
            var all := Reach(m, h, |h|);
            next in all && |all - (known + {next})| < |all - known|
  {
    var next := Succ(m, h, At(ops, states, |ops|), x);
    var ops', states', all := ops + [x], states + [next.state], Reach(m, h, |h|);
    BranchReached(m, h, ops', states', |ops'|);
    assert ops'[..|ops'|] == ops' && ops[..|ops|] == ops;
    assert At(ops', states', |ops'|) == next;
    BranchBounded(m, h, ops', states');
    ReachGrows(m, h, |ops'|, |h|);
    assert all - (known + {next}) == (all - known) - {next};
  }

  lemma {:induction false} ApartSize(order: seq<nat>)
    requires forall i, j :: 0 <= i < j < |order| ==> order[i] != order[j]
    ensures |Done(order)| == |order|
    decreases |order|
  {
    if order != [] {
      var k := |order| - 1;
      ApartSize(order[..k]);
      assert Done(order) == Done(order[..k]) + {order[k]};
    }
  }

  /** A permutation of the numbers below `n` has `n` places. */
  lemma PermutationSize(order: seq<nat>, n: nat)
    requires Permutation(order, n)
    ensures |order| == n
  {
    ApartSize(order);
    forall x: nat ensures x in Done(order) <==> x in Ids(n) {
      InIds(n, x);
    }
    assert Done(order) == Ids(n);
    IdsSize(n);
  }
}
