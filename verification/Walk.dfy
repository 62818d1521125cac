/**
 The search as it walks the event list: what holds whenever the loop of the
 checker looks at the list, and how each of its moves keeps it.
 */
module Walk {
  import opened History
  import opened Search
  import opened EventList
  import opened Entries
  import opened Pending

  /** The branch, its states, the links of the list at every depth, the remembered pairs, and the cursor. */
  datatype View<S(==)> = View(ops: seq<nat>, states: seq<S>, links: seq<Links>, known: set<Config<S>>, at: nat)

  /** What is left of the list once `ops` are done. */
  ghost function List<I, O>(es: seq<Entry<I, O>>, ops: seq<nat>): seq<nat> {
    Left(es, Done(ops), |es|)
  }

  /** The entry under the cursor. */
  function Bound(pos: seq<nat>, at: nat): int {
    if 0 < at < |pos| then pos[at] as int - 1 else 0
  }

  /** Only calls from the head up to the cursor. */
  ghost predicate CallsBefore<I, O>(es: seq<Entry<I, O>>, pos: seq<nat>, at: nat)
    requires forall j :: 0 <= j < |pos| ==> pos[j] <= |es|
  {
    1 <= at < |pos| && forall j :: 1 <= j < at ==> pos[j] > 0 && !es[pos[j] - 1].isReturn
  }

  /** The list at every depth is the original one minus the operations done, and each depth was reached by a lift. */
  ghost predicate LinksOk<I, O>(es: seq<Entry<I, O>>, g: seq<Operation<I, O>>, ops: seq<nat>, links: seq<Links>) {
    && |links| == |ops| + 1
    && (forall d :: 0 <= d <= |ops| ==> Chain(links[d], List(es, ops[..d]), |es| + 1))
    && (forall d :: 0 <= d < |ops| ==> ops[d] < |g| && LiftedTo(es, g[ops[d]], links[d], links[d + 1]))
  }

  ghost predicate LiftedTo<I, O>(es: seq<Entry<I, O>>, o: Operation<I, O>, l: Links, l': Links) {
    && o.call >= 0 && o.ret >= 0 && Liftable(l, o.call + 1, o.ret + 1, |es| + 1)
    && l' == LiftedLinks(l, o.call + 1, o.ret + 1, |es| + 1)
  }

  ghost predicate CursorOk<I, O>(es: seq<Entry<I, O>>, ops: seq<nat>, at: nat) {
    LeftAre(es, Done(ops), |es|);
    |List(es, ops)| > 1 ==> CallsBefore(es, List(es, ops), at)
  }

  ghost predicate Good<S(!new), I, O>(m: Model<S, I, O>, es: seq<Entry<I, O>>, g: seq<Operation<I, O>>, v: View<S>) {
    && Reads(es, g)
    && SearchInv(m, g, v.ops, v.states, v.known, Bound(List(es, v.ops), v.at))
    && LinksOk(es, g, v.ops, v.links)
    && CursorOk(es, v.ops, v.at)
  }

  // ---------------------------------------------------------------- start and end

  lemma StartGood<S(!new), I, O>(m: Model<S, I, O>, es: seq<Entry<I, O>>, g: seq<Operation<I, O>>)
    requires Reads(es, g)
    ensures Good(m, es, g, View([], [m.init], [Line(|es| + 1)], {}, 1))
  {
    var v := View([], [m.init], [Line(|es| + 1)], {}, 1);
    var pos := List(es, v.ops);
    LeftAre(es, {}, |es|);
    assert Done(v.ops) == {} && v.ops[..0] == [];
    forall q: nat | q <= |es| ensures q in pos {
      assert IsLeft(es, {}, |es|, q);
    }
    FullList(pos, |es| + 1);
    LineChain(|es| + 1, pos);
  }

  lemma {:induction false} FullList(pos: seq<nat>, n: nat)
    requires Positions(pos, n) && forall q: nat :: q < n ==> q in pos
    ensures |pos| == n && forall k :: 0 <= k < n ==> pos[k] == k
    decreases n
  {
    assert |pos| > 0 ==> pos[0] < n;
    if n > 0 {
      var k := |pos| - 1;
      assert n - 1 in pos;
      assert pos[k] == n - 1;
      forall q: nat | q < n - 1 ensures q in pos[..k] {
        assert q in pos;
      }
      FullList(pos[..k], n - 1);
    }
  }

  /** An empty list means that every operation has been linearized. */
  lemma EndAccepts<S(!new), I, O>(m: Model<S, I, O>, es: seq<Entry<I, O>>, g: seq<Operation<I, O>>, v: View<S>)
    requires Good(m, es, g, v) && |List(es, v.ops)| == 1
    ensures Linearizable(m, g)
  {
    forall x | 0 <= x < |g| ensures x in Done(v.ops) {
      if x !in Done(v.ops) {
        var k, r := PairLeft(es, g, Done(v.ops), x);
        assert false;
      }
    }
    BranchCompletes(m, g, v.ops, v.states, 0);
    assert Done(v.ops[..0]) == {};
    LinearizableIffAlive(m, g);
  }

  // ---------------------------------------------------------------- a call under the cursor

  /** The cursor is on an entry of a pending operation. */
  lemma UnderCursor<I, O>(es: seq<Entry<I, O>>, g: seq<Operation<I, O>>, done: set<nat>, k: nat)
    requires Reads(es, g) && 0 < k < |Left(es, done, |es|)|
    ensures 0 < Left(es, done, |es|)[k] <= |es|
    ensures var p: int := Left(es, done, |es|)[k] - 1;
            es[p].id < |g| && es[p].id !in done && p == if es[p].isReturn then g[es[p].id].ret else g[es[p].id].call
  {
    var pos := Left(es, done, |es|);
    LeftAre(es, done, |es|);
    assert IsLeft(es, done, |es|, pos[k]);
  }

  /** A call behind calls only may be linearized next, and something comes after it. */
  lemma CallIsCandidate<I, O>(es: seq<Entry<I, O>>, g: seq<Operation<I, O>>, done: set<nat>, k: nat, x: nat)
    requires Reads(es, g) && 0 < k < |Left(es, done, |es|)| && x < |g| && x !in done
    requires Left(es, done, |es|)[k] == g[x].call + 1
    requires forall j :: 0 <= j < |Left(es, done, |es|)| ==> Left(es, done, |es|)[j] <= |es|
    requires CallsBefore(es, Left(es, done, |es|), k)
    ensures Candidate(g, done, x) && k + 1 < |Left(es, done, |es|)|
  {
    var pos := Left(es, done, |es|);
    LeftAre(es, done, |es|);
    var i, r := PairLeft(es, g, done, x);
    forall y | 0 <= y < |g| && y !in done ensures !(g[y].ret < g[x].call) {
      ReturnNotBefore(es, g, done, k, y);
    }
  }

  lemma ReturnNotBefore<I, O>(es: seq<Entry<I, O>>, g: seq<Operation<I, O>>, done: set<nat>, k: nat, y: nat)
    requires Reads(es, g) && 0 < k < |Left(es, done, |es|)| && y < |g| && y !in done
    requires forall j :: 0 <= j < |Left(es, done, |es|)| ==> Left(es, done, |es|)[j] <= |es|
    requires CallsBefore(es, Left(es, done, |es|), k)
    ensures g[y].ret + 1 >= Left(es, done, |es|)[k]
  {
    var pos := Left(es, done, |es|);
    LeftAre(es, done, |es|);
    var i, j := PairLeft(es, g, done, y);
    assert IsReturn(es[g[y].ret], y, g[y].output);
    hide Left, Reads;
    assert j >= k;
  }

  /** No call is skipped between neighbours in the list. */
  lemma NoCallsBetween<I, O>(es: seq<Entry<I, O>>, g: seq<Operation<I, O>>, done: set<nat>, k: nat)
    requires Reads(es, g) && var pos := Left(es, done, |es|); k + 1 < |pos|
    ensures var pos := Left(es, done, |es|); NoCalls(g, done, pos[k], pos[k + 1] as int - 1)
  {
    var pos := Left(es, done, |es|);
    LeftAre(es, done, |es|);
    forall y | 0 <= y < |g| && y !in done ensures !(pos[k] <= g[y].call < pos[k + 1] as int - 1) {
      var i, j := PairLeft(es, g, done, y);
      assert i <= k || i >= k + 1;
    }
  }

  ghost predicate CallAt<S, I, O>(es: seq<Entry<I, O>>, g: seq<Operation<I, O>>, v: View<S>, x: nat) {
    && 1 <= v.at < |List(es, v.ops)| && x < |g| && x !in Done(v.ops)
    && List(es, v.ops)[v.at] == g[x].call + 1
  }

  ghost predicate ReturnAt<S, I, O>(es: seq<Entry<I, O>>, g: seq<Operation<I, O>>, v: View<S>, x: nat) {
    && 1 <= v.at < |List(es, v.ops)| && x < |g| && x !in Done(v.ops)
    && List(es, v.ops)[v.at] == g[x].ret + 1
  }

  /** The call is rejected, or leads to a remembered pair: the cursor moves on. */
  lemma AdvanceGood<S(!new), I, O>(m: Model<S, I, O>, es: seq<Entry<I, O>>, g: seq<Operation<I, O>>, v: View<S>, x: nat)
    requires Good(m, es, g, v) && CallAt(es, g, v, x) && |v.states| == |v.ops| + 1
    requires !Accepts(m, g, v.states[|v.ops|], x) || Succ(m, g, At(v.ops, v.states, |v.ops|), x) in v.known
    ensures Good(m, es, g, v.(at := v.at + 1)) && v.at + 1 < |List(es, v.ops)|
  {
    hide LinksOk, Reads, Left, SearchInv, Timed, NoCalls, Accepts, Succ, At;
    AdvanceCursor(es, g, v.ops, v.at, x);
    NoCallsBetween(es, g, Done(v.ops), v.at);
    ReadsTimed(es, g);
    AdvanceKeeps(m, g, v.ops, v.states, v.known, x, Bound(List(es, v.ops), v.at + 1));
  }

  lemma AdvanceCursor<I, O>(es: seq<Entry<I, O>>, g: seq<Operation<I, O>>, ops: seq<nat>, at: nat, x: nat)
    requires Reads(es, g) && CursorOk(es, ops, at) && 1 <= at < |List(es, ops)| && x < |g| && x !in Done(ops)
    requires List(es, ops)[at] == g[x].call + 1
    ensures CursorOk(es, ops, at + 1) && at + 1 < |List(es, ops)|
  {
    LeftAre(es, Done(ops), |es|);
    CallIsCandidate(es, g, Done(ops), at, x);
    assert IsCall(es[g[x].call], x, g[x].input);
  }

  // ---------------------------------------------------------------- entering a new configuration

  /** The links once the pair of `o` has been lifted. */
  ghost function LiftOf<I, O>(es: seq<Entry<I, O>>, o: Operation<I, O>, l: Links): Links
    requires o.call >= 0 && o.ret >= 0 && Liftable(l, o.call + 1, o.ret + 1, |es| + 1)
  {
    LiftedLinks(l, o.call + 1, o.ret + 1, |es| + 1)
  }

  lemma DoneMore(ops: seq<nat>, x: nat)
    ensures Done(ops + [x]) == Done(ops) + {x}
  {
  }

  lemma InEntries<I, O>(es: seq<Entry<I, O>>, g: seq<Operation<I, O>>, x: nat)
    requires Reads(es, g) && x < |g|
    ensures 0 <= g[x].call < g[x].ret < |es|
  {
  }

  lemma LiftLeft<I, O>(es: seq<Entry<I, O>>, g: seq<Operation<I, O>>, ops: seq<nat>, l: Links, x: nat)
    requires Reads(es, g) && Chain(l, List(es, ops), |es| + 1) && x < |g| && x !in Done(ops)
    ensures g[x].call >= 0 && g[x].ret >= 0 && Liftable(l, g[x].call + 1, g[x].ret + 1, |es| + 1)
    ensures Chain(LiftOf(es, g[x], l), List(es, ops + [x]), |es| + 1)
  {
    hide Liftable, LiftedLinks, Chain, Left, Without, Reads, Done;
    DoneMore(ops, x);
    InEntries(es, g, x);
    var k, r := PairLeft(es, g, Done(ops), x);
    LiftChain(l, List(es, ops), k, r, |es| + 1);
    LeftWithout(es, g, Done(ops), x, k, r);
  }

  lemma PushLinks<I, O>(es: seq<Entry<I, O>>, g: seq<Operation<I, O>>, ops: seq<nat>, links: seq<Links>, x: nat)
    requires Reads(es, g) && LinksOk(es, g, ops, links) && x < |g| && x !in Done(ops)
    ensures g[x].call >= 0 && g[x].ret >= 0 && Liftable(links[|ops|], g[x].call + 1, g[x].ret + 1, |es| + 1)
    ensures LinksOk(es, g, ops + [x], links + [LiftOf(es, g[x], links[|ops|])])
  {
    hide Liftable, LiftedLinks, Chain, List, Reads;
    var l := links[|ops|];
    assert ops[..|ops|] == ops;
    LiftLeft(es, g, ops, l, x);
    var ops', links' := ops + [x], links + [LiftOf(es, g[x], l)];
    assert LiftedTo(es, g[x], l, LiftOf(es, g[x], l));
    hide LiftedTo;
    forall d | 0 <= d <= |ops'| ensures Chain(links'[d], List(es, ops'[..d]), |es| + 1) {
      assert ops'[..d] == if d <= |ops| then ops[..d] else ops';
    }
  }

  lemma FirstCall<I, O>(es: seq<Entry<I, O>>, g: seq<Operation<I, O>>, done: set<nat>, y: nat)
    requires Reads(es, g) && y < |g| && y !in done
    ensures g[y].call >= Bound(Left(es, done, |es|), 1)
  {
    LeftAre(es, done, |es|);
    var k, r := PairLeft(es, g, done, y);
  }

  lemma PushGood<S(!new), I, O>(m: Model<S, I, O>, es: seq<Entry<I, O>>, g: seq<Operation<I, O>>, v: View<S>, x: nat)
    requires Good(m, es, g, v) && CallAt(es, g, v, x) && |v.states| == |v.ops| + 1 == |v.links|
    requires Accepts(m, g, v.states[|v.ops|], x)
    ensures g[x].call >= 0 && g[x].ret >= 0 && Liftable(v.links[|v.ops|], g[x].call + 1, g[x].ret + 1, |es| + 1)
    ensures var next := Succ(m, g, At(v.ops, v.states, |v.ops|), x);
            Good(m, es, g, View(v.ops + [x], v.states + [next.state], v.links + [LiftOf(es, g[x], v.links[|v.ops|])],
                v.known + {next}, 1))
  {
    hide LinksOk, Reads, Liftable, LiftOf, SearchInv, Accepts, Succ, Left;
    PushCandidate(es, g, v.ops, v.at, x);
    PushLinks(es, g, v.ops, v.links, x);
    assert v.ops[..|v.ops|] == v.ops;
    PushKeeps(m, g, v.ops, v.states, v.known, x, Bound(List(es, v.ops + [x]), 1));
    StartCursor(es, v.ops + [x]);
  }

  lemma StartCursor<I, O>(es: seq<Entry<I, O>>, ops: seq<nat>)
    ensures CursorOk(es, ops, 1)
  {
  }

  lemma PushCandidate<I, O>(es: seq<Entry<I, O>>, g: seq<Operation<I, O>>, ops: seq<nat>, at: nat, x: nat)
    requires Reads(es, g) && CursorOk(es, ops, at) && 1 <= at < |List(es, ops)| && x < |g| && x !in Done(ops)
    requires List(es, ops)[at] == g[x].call + 1
    ensures Candidate(g, Done(ops), x)
    ensures forall y :: 0 <= y < |g| && y !in Done(ops) + {x} ==> g[y].call >= Bound(List(es, ops + [x]), 1)
  {
    LeftAre(es, Done(ops), |es|);
    CallIsCandidate(es, g, Done(ops), at, x);
    hide Left, Reads;
    assert Done(ops + [x]) == Done(ops) + {x};
    forall y | 0 <= y < |g| && y !in Done(ops) + {x} ensures g[y].call >= Bound(List(es, ops + [x]), 1) {
      FirstCall(es, g, Done(ops) + {x}, y);
    }
  }

  // ---------------------------------------------------------------- leaving a dead configuration

  /** Before the call of a candidate there are only calls. */
  lemma CandidateBehindCalls<I, O>(es: seq<Entry<I, O>>, g: seq<Operation<I, O>>, ops: seq<nat>, x: nat, k: nat)
    requires Reads(es, g) && Candidate(g, Done(ops), x) && k + 1 < |List(es, ops)| && List(es, ops)[k] == g[x].call + 1
    ensures CursorOk(es, ops, k + 1)
  {
    var pos, done := List(es, ops), Done(ops);
    LeftAre(es, done, |es|);
    forall j | 1 <= j < k + 1 ensures pos[j] > 0 && !es[pos[j] - 1].isReturn {
      UnderCursor(es, g, done, j);
      assert IsCall(es[g[x].call], x, g[x].input);
    }
  }

  lemma PopLinks<I, O>(es: seq<Entry<I, O>>, g: seq<Operation<I, O>>, ops: seq<nat>, links: seq<Links>)
    requires |ops| > 0 && LinksOk(es, g, ops, links)
    ensures LinksOk(es, g, ops[..|ops| - 1], links[..|ops|])
  {
    var ops', links' := ops[..|ops| - 1], links[..|ops|];
    hide Chain, Left;
    forall d | 0 <= d <= |ops'| ensures Chain(links'[d], List(es, ops'[..d]), |es| + 1) {
      assert ops'[..d] == ops[..d];
    }
  }

  /** Back at the previous depth, with the cursor behind the call that led nowhere. */
  ghost function Popped<S, I, O>(es: seq<Entry<I, O>>, v: View<S>, k: nat): View<S>
    requires |v.ops| > 0 && |v.states| == |v.ops| + 1 == |v.links|
  {
    View(v.ops[..|v.ops| - 1], v.states[..|v.ops|], v.links[..|v.ops|], v.known, k + 1)
  }

  lemma PopGood<S(!new), I, O>(
    m: Model<S, I, O>, es: seq<Entry<I, O>>, g: seq<Operation<I, O>>, v: View<S>, r: nat) returns (k: nat)
    requires Good(m, es, g, v) && ReturnAt(es, g, v, r) && |v.ops| > 0 && |v.states| == |v.ops| + 1 == |v.links|
    ensures var x, pos := v.ops[|v.ops| - 1], List(es, v.ops[..|v.ops| - 1]);
            x < |g| && k + 1 < |pos| && pos[k] == g[x].call + 1 && Good(m, es, g, Popped(es, v, k))
  {
    var ops', x := v.ops[..|v.ops| - 1], v.ops[|v.ops| - 1];
    ReadsTimed(es, g);
    Exhausted(m, g, v.ops, v.states, v.known, r);
    assert Move(m, g, At(v.ops, v.states, |v.ops| - 1), x);
    PopLinks(es, g, v.ops, v.links);
    hide Left, LinksOk, Reads, Dead, Timed, Explored;
    var j;
    k, j := PairLeft(es, g, Done(ops'), x);
    CandidateBehindCalls(es, g, ops', x, k);
    NoCallsBetween(es, g, Done(ops'), k);
    PopKeeps(m, g, v.ops, v.states, v.known, Bound(List(es, ops'), k + 1));
  }

  /** Nothing to go back to: the initial configuration is dead. */
  lemma FailRejects<S(!new), I, O>(m: Model<S, I, O>, es: seq<Entry<I, O>>, g: seq<Operation<I, O>>, v: View<S>, r: nat)
    requires Good(m, es, g, v) && ReturnAt(es, g, v, r) && v.ops == []
    ensures !Linearizable(m, g)
  {
    ReadsTimed(es, g);
    Exhausted(m, g, v.ops, v.states, v.known, r);
    assert Done(v.ops[..0]) == {};
    LinearizableIffAlive(m, g);
  }
}
