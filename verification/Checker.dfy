/** The checker's search loop, on the linked list, the bitset and the cache. */
module Checker {
  import opened Bitset
  import opened History
  import opened Search
  import opened EventList
  import opened Entries
  import opened Pending
  import opened Walk
  import opened Cache

  datatype CallsEntry<I, O, S> = CallsEntry(entry: Node<Value<I, O>>, state: S)

  lemma NextPointer<V>(all: seq<Node<V>>, l: Links, i: nat)
    requires Shape(all, l) && i < |all|
    ensures |l.next| == |all| && all[i].next == NodeAt(all, l.next[i])
  {
    hide NodeAt;
  }

  lemma NextPosition(l: Links, pos: seq<nat>, k: nat, n: nat)
    requires Chain(l, pos, n) && k < |pos|
    ensures |l.next| == n && pos[k] < n && l.next[pos[k]] == if k + 1 < |pos| then pos[k + 1] else -1
    ensures k + 1 < |pos| ==> pos[k + 1] < n
  {
    if k + 1 < |pos| {
      var j := k + 1;
      assert l.next[pos[k]] == pos[j];
    }
  }

  /** Following a pointer is following the list. */
  lemma NextInList<V>(all: seq<Node<V>>, l: Links, pos: seq<nat>, k: nat)
    requires Shape(all, l) && Chain(l, pos, |all|) && k < |pos|
    ensures pos[k] < |all| && (k + 1 < |pos| ==> pos[k + 1] < |all|)
    ensures all[pos[k]].next == if k + 1 < |pos| then all[pos[k + 1]] else null
  {
    hide Shape, Chain;
    NextPosition(l, pos, k, |all|);
    NextPointer(all, l, pos[k]);
  }

  /** The node at position 0 is the head, and those behind it carry the entries. */
  ghost predicate Headed<I, O>(all: seq<Node<Value<I, O>>>, es: seq<Entry<I, O>>, g: seq<Operation<I, O>>) {
    |all| > 0 && Distinct(all) && Carries(all[1..], es, g, 0)
  }

  /** The node of a pending operation's call or return. */
  lemma NodeOfCall<I, O>(all: seq<Node<Value<I, O>>>, es: seq<Entry<I, O>>, g: seq<Operation<I, O>>, x: nat)
    requires Headed(all, es, g) && x < |g|
    ensures 0 <= g[x].call < g[x].ret < |es| == |all| - 1
    ensures var call, ret := all[g[x].call + 1], all[g[x].ret + 1];
            && call.id == x && call.value == In(g[x].input) && call.mate == ret
            && ret.id == x && ret.value == Out(g[x].output) && ret.mate == null
  {
    var nodes := all[1..];
    assert IsCall(es[0 + g[x].call], x, g[x].input) && IsReturn(es[0 + g[x].ret], x, g[x].output);
    assert nodes[g[x].call] == all[g[x].call + 1] && nodes[g[x].ret] == all[g[x].ret + 1];
  }

  /** A node with a mate is a call, one without is a return. */
  lemma NodeUnderCursor<I, O>(
    all: seq<Node<Value<I, O>>>, es: seq<Entry<I, O>>, g: seq<Operation<I, O>>, done: set<nat>, k: nat)
    requires Headed(all, es, g) && Reads(es, g) && 0 < k < |Left(es, done, |es|)|
    ensures 0 < Left(es, done, |es|)[k] < |all|
    ensures var n := all[Left(es, done, |es|)[k]];
            && n.id < |g| && n.id !in done
            && Left(es, done, |es|)[k] == 1 + if n.mate != null then g[n.id].call else g[n.id].ret
  {
    hide Headed, Reads, Left;
    UnderCursor(es, g, done, k);
    var p := Left(es, done, |es|)[k] - 1;
    NodeOfCall(all, es, g, es[p].id);
  }

  ghost predicate StackOk<I, O, S>(
    all: seq<Node<Value<I, O>>>, g: seq<Operation<I, O>>, v: View<S>, calls: seq<CallsEntry<I, O, S>>) {
    && |calls| == |v.ops| && |v.states| == |v.ops| + 1
    && (forall d :: 0 <= d < |v.ops| ==> v.ops[d] < |g| && calls[d].entry == NodeAt(all, g[v.ops[d]].call + 1))
    && (forall d :: 0 <= d < |v.ops| ==> calls[d].state == v.states[d])
  }

  /** Looks the pair up under a copy of the set, and adds it if it is new. */
  method Remember<S(==)>(
    linearized: array<bv64>, id: nat, state: S, cache: map<Hashed, seq<CacheEntry<S>>>,
    ghost known: set<Config<S>>, ghost owned: set<array<bv64>>)
    returns (seen: bool, cache': map<Hashed, seq<CacheEntry<S>>>, ghost owned': set<array<bv64>>)
    requires Holds(cache, known, linearized.Length, owned) && linearized !in owned && id < 64 * linearized.Length
    ensures seen <==> Config(Members(linearized[..]) + {id}, state) in known
    ensures linearized !in owned'
    ensures Holds(cache', known + {Config(Members(linearized[..]) + {id}, state)}, linearized.Length, owned')
  {
    hide Members, HashOf, Holds;
    var copy := Clone(linearized);
    Set(copy, id);
    var e := CacheEntry(copy, state);
    ghost var c := Config(Members(linearized[..]) + {id}, state);
    assert ConfigOf(e) == c;
    seen := CacheContains(cache, e, known, linearized.Length, owned);
    if seen {
      assert known + {c} == known;
      cache', owned' := cache, owned;
    } else {
      var hash := Hash(copy);
      InsertHolds(cache, e, Hashed(hash), known, linearized.Length, owned);
      cache', owned' := Insert(cache, Hashed(hash), e), owned + {copy};
    }
  }

  // ---------------------------------------------------------------- the loop

  /** The cursor node, the pointers and the stack agree with the view. */
  ghost predicate ListOk<S, I, O>(
    all: seq<Node<Value<I, O>>>, es: seq<Entry<I, O>>, g: seq<Operation<I, O>>, v: View<S>,
    entry: Node?<Value<I, O>>, state: S, calls: seq<CallsEntry<I, O, S>>)
    reads all
  {
    && |v.links| == |v.ops| + 1 == |v.states| && |all| == |es| + 1
    && Shape(all, v.links[|v.ops|])
    && (1 <= v.at < |List(es, v.ops)| ==> entry == NodeAt(all, List(es, v.ops)[v.at]))
    && state == v.states[|v.ops|] && StackOk(all, g, v, calls)
  }

  /** The bitset is the set of linearized operations, and the cache holds what the search remembers. */
  ghost predicate MemoryOk<S>(
    v: View<S>, size: nat, linearized: array<bv64>, cache: map<Hashed, seq<CacheEntry<S>>>, owned: set<array<bv64>>)
    reads linearized, owned
  {
    && Members(linearized[..]) == Done(v.ops) && size <= 64 * linearized.Length
    && linearized !in owned && Holds(cache, v.known, linearized.Length, owned)
  }

  /** The cursor moves on over a call that is of no use. */
  lemma AdvanceList<S(!new), I, O>(
    m: Model<S, I, O>, all: seq<Node<Value<I, O>>>, es: seq<Entry<I, O>>, g: seq<Operation<I, O>>, v: View<S>,
    entry: Node<Value<I, O>>, state: S, calls: seq<CallsEntry<I, O, S>>)
    requires Good(m, es, g, v) && ListOk(all, es, g, v, entry, state, calls) && 1 <= v.at
    requires v.at + 1 < |List(es, v.ops)|
    ensures ListOk(all, es, g, v.(at := v.at + 1), entry.next, state, calls)
  {
    hide Left, Shape, Reads, SearchInv, CursorOk, Chain;
    assert v.ops[..|v.ops|] == v.ops;
    assert Chain(v.links[|v.ops|], List(es, v.ops[..|v.ops|]), |es| + 1);
    NextInList(all, v.links[|v.ops|], List(es, v.ops), v.at);
  }

  /** The call under the cursor, and the node of its return. */
  lemma CallNode<S(!new), I, O>(
    m: Model<S, I, O>, all: seq<Node<Value<I, O>>>, es: seq<Entry<I, O>>, g: seq<Operation<I, O>>, v: View<S>,
    entry: Node<Value<I, O>>, state: S, calls: seq<CallsEntry<I, O, S>>)
    requires Headed(all, es, g) && Good(m, es, g, v) && ListOk(all, es, g, v, entry, state, calls)
    requires |List(es, v.ops)| > 1
    ensures entry.mate != null ==> CallAt(es, g, v, entry.id) && AtCall(all, g, entry, entry.id)
    ensures entry.mate == null ==> ReturnAt(es, g, v, entry.id)
    ensures |all| == |es| + 1
  {
    hide Left, Shape, Reads, SearchInv, LinksOk, Headed;
    assert 1 <= v.at < |List(es, v.ops)|;
    NodeUnderCursor(all, es, g, Done(v.ops), v.at);
    NodeOfCall(all, es, g, entry.id);
  }

  /** `entry` is the node of the call of `x`. */
  ghost predicate AtCall<I, O>(all: seq<Node<Value<I, O>>>, g: seq<Operation<I, O>>, entry: Node<Value<I, O>>, x: nat) {
    && x < |g| && 0 <= g[x].call < g[x].ret < |all| - 1
    && entry == all[g[x].call + 1] && entry.mate == all[g[x].ret + 1]
    && entry.id == x && entry.value == In(g[x].input) && all[g[x].ret + 1].value == Out(g[x].output)
  }

  ghost function Pushed<S, I, O>(
    m: Model<S, I, O>, es: seq<Entry<I, O>>, g: seq<Operation<I, O>>, v: View<S>, x: nat): View<S>
    requires x < |g| && |v.links| == |v.ops| + 1 == |v.states|
    requires g[x].call >= 0 && g[x].ret >= 0 && Liftable(v.links[|v.ops|], g[x].call + 1, g[x].ret + 1, |es| + 1)
  {
    var next := Succ(m, g, At(v.ops, v.states, |v.ops|), x);
    View(v.ops + [x], v.states + [next.state], v.links + [LiftOf(es, g[x], v.links[|v.ops|])], v.known + {next}, 1)
  }

  lemma PushStack<S(!new), I, O>(
    m: Model<S, I, O>, all: seq<Node<Value<I, O>>>, es: seq<Entry<I, O>>, g: seq<Operation<I, O>>, v: View<S>,
    entry: Node<Value<I, O>>, x: nat, calls: seq<CallsEntry<I, O, S>>)
    requires x < |g| && |v.links| == |v.ops| + 1 == |v.states|
    requires g[x].call >= 0 && g[x].ret >= 0 && Liftable(v.links[|v.ops|], g[x].call + 1, g[x].ret + 1, |es| + 1)
    requires StackOk(all, g, v, calls) && AtCall(all, g, entry, x)
    ensures StackOk(all, g, Pushed(m, es, g, v, x), calls + [CallsEntry(entry, v.states[|v.ops|])])
  {
    hide Liftable, LiftOf, Succ;
  }

  /** After the lift, the cursor is back at the front of the list. */
  lemma PushList<S(!new), I, O>(
    m: Model<S, I, O>, all: seq<Node<Value<I, O>>>, es: seq<Entry<I, O>>, g: seq<Operation<I, O>>, v: View<S>,
    state: S, calls: seq<CallsEntry<I, O, S>>)
    requires |v.links| == |v.ops| + 1 == |v.states| && |all| == |es| + 1 && v.at == 1
    requires StackOk(all, g, v, calls) && Good(m, es, g, v) && Shape(all, v.links[|v.ops|])
    requires state == v.states[|v.ops|]
    ensures ListOk(all, es, g, v, all[0].next, state, calls)
  {
    hide Left, Shape, Reads, SearchInv, CursorOk, Chain, StackOk;
    assert v.ops[..|v.ops|] == v.ops;
    assert Chain(v.links[|v.ops|], List(es, v.ops[..|v.ops|]), |es| + 1);
    LeftAre(es, Done(v.ops), |es|);
    NextInList(all, v.links[|v.ops|], List(es, v.ops), 0);
  }

  /** How many of the finitely many reachable pairs are not remembered yet. */
  ghost function Unknown<S, I, O>(m: Model<S, I, O>, g: seq<Operation<I, O>>, known: set<Config<S>>): nat {
    |Reach(m, g, |g|) - known|
  }

  /** Takes the call out of the list, and starts again at the front. */
  method Enter<S(==, !new), I, O>(
    m: Model<S, I, O>, headEntry: Node<Value<I, O>>, entry: Node<Value<I, O>>, linearized: array<bv64>,
    ghost all: seq<Node<Value<I, O>>>, ghost es: seq<Entry<I, O>>, ghost g: seq<Operation<I, O>>, ghost v: View<S>,
    ghost state: S, ghost calls: seq<CallsEntry<I, O, S>>)
    returns (entry': Node?<Value<I, O>>, ghost v': View<S>)
    requires Headed(all, es, g) && Good(m, es, g, v) && ListOk(all, es, g, v, entry, state, calls)
    requires CallAt(es, g, v, entry.id) && AtCall(all, g, entry, entry.id) && headEntry == all[0]
    requires Accepts(m, g, state, entry.id)
    requires Members(linearized[..]) == Done(v.ops) && entry.id < 64 * linearized.Length
    modifies all, linearized
    ensures var next := Succ(m, g, Config(Done(v.ops), state), entry.id);
            && v'.known == v.known + {next} && v'.ops == v.ops + [entry.id] && v'.states == v.states + [next.state]
            && Good(m, es, g, v')
            && ListOk(all, es, g, v', entry', next.state, calls + [CallsEntry(entry, state)])
            && Members(linearized[..]) == Done(v'.ops)
  {
    hide Headed, Left, Reads, SearchInv, CursorOk, LinksOk, Chain, Shape, Liftable, LiftedLinks, StackOk, Members,
        Succ, Accepts, Done;
    ghost var x := entry.id;
    PushGood(m, es, g, v, x);
    v' := Pushed(m, es, g, v, x);
    DoneMore(v.ops, x);
    assert v.ops[..|v.ops|] == v.ops;
    PushStack(m, all, es, g, v, entry, x, calls);
    Set(linearized, entry.id);
    DistinctNodes(all, es, g);
    Lift(entry, all, v.links[|v.ops|], g[x].call + 1, g[x].ret + 1);
    PushList(m, all, es, g, v', v'.states[|v'.ops|], calls + [CallsEntry(entry, state)]);
    entry' := headEntry.next;
  }

  lemma DistinctNodes<I, O>(all: seq<Node<Value<I, O>>>, es: seq<Entry<I, O>>, g: seq<Operation<I, O>>)
    requires Headed(all, es, g)
    ensures Distinct(all)
  {
  }

  lemma LastDone(ops: seq<nat>)
    requires |ops| > 0 && ops[|ops| - 1] !in Done(ops[..|ops| - 1])
    ensures Done(ops[..|ops| - 1]) == Done(ops) - {ops[|ops| - 1]}
  {
    DoneStep(ops, |ops| - 1);
    assert ops[..|ops|] == ops;
  }

  lemma PopStack<S, I, O>(
    all: seq<Node<Value<I, O>>>, es: seq<Entry<I, O>>, g: seq<Operation<I, O>>, v: View<S>,
    calls: seq<CallsEntry<I, O, S>>)
    requires StackOk(all, g, v, calls) && |calls| > 0 && |v.links| == |v.ops| + 1
    ensures var k := |calls| - 1;
            && |v.ops| == |v.states| - 1 == k + 1 && v.ops[k] < |g|
            && calls[k].entry == NodeAt(all, g[v.ops[k]].call + 1) && calls[k].state == v.states[k]
            && StackOk(all, g, Popped(es, v, 0), calls[..k])
  {
    hide NodeAt;
  }

  lemma GoodBranch<S(!new), I, O>(m: Model<S, I, O>, es: seq<Entry<I, O>>, g: seq<Operation<I, O>>, v: View<S>)
    requires Good(m, es, g, v)
    ensures Branch(m, g, v.ops, v.states) && |v.links| == |v.ops| + 1
    ensures forall d :: 0 <= d < |v.ops| ==> v.ops[d] < |g| && LiftedTo(es, g[v.ops[d]], v.links[d], v.links[d + 1])
  {
    hide Branch, Chain, Left, LiftedTo, Explored, Reads, CursorOk;
  }

  /** The top of the stack is the call that was lifted last. */
  lemma TopOfStack<S(!new), I, O>(
    m: Model<S, I, O>, all: seq<Node<Value<I, O>>>, es: seq<Entry<I, O>>, g: seq<Operation<I, O>>, v: View<S>,
    calls: seq<CallsEntry<I, O, S>>)
    requires Headed(all, es, g) && Good(m, es, g, v) && StackOk(all, g, v, calls) && |calls| > 0
    ensures var k := |calls| - 1;
            && |v.ops| == |v.states| - 1 == |v.links| - 1 == k + 1
            && AtCall(all, g, calls[k].entry, v.ops[k]) && calls[k].state == v.states[k]
            && Done(v.ops[..k]) == Done(v.ops) - {v.ops[k]}
            && LiftedTo(es, g[v.ops[k]], v.links[k], v.links[k + 1])
            && StackOk(all, g, Popped(es, v, 0), calls[..k])
  {
    hide Headed, Good, LiftedTo, StackOk, Branch, Done, Popped;
    var k := |calls| - 1;
    GoodBranch(m, es, g, v);
    PopStack(all, es, g, v, calls);
    BranchStep(m, g, v.ops, v.states, k);
    LastDone(v.ops);
    NodeOfCall(all, es, g, v.ops[k]);
  }

  /** Puts the last call back and goes on behind it. */
  method Backtrack<S(==, !new), I, O>(
    m: Model<S, I, O>, linearized: array<bv64>, top: CallsEntry<I, O, S>, ghost r: nat,
    ghost all: seq<Node<Value<I, O>>>, ghost es: seq<Entry<I, O>>, ghost g: seq<Operation<I, O>>, ghost v: View<S>,
    ghost entry: Node?<Value<I, O>>, ghost state: S, ghost calls: seq<CallsEntry<I, O, S>>)
    returns (entry': Node?<Value<I, O>>, ghost v': View<S>)
    requires Headed(all, es, g) && Good(m, es, g, v) && ListOk(all, es, g, v, entry, state, calls)
    requires |calls| > 0 && ReturnAt(es, g, v, r) && top == calls[|calls| - 1]
    requires Members(linearized[..]) == Done(v.ops) && |g| <= 64 * linearized.Length
    modifies all, linearized
    ensures v'.known == v.known && |v'.ops| < |v.ops| && Good(m, es, g, v')
    ensures ListOk(all, es, g, v', entry', top.state, calls[..|calls| - 1])
    ensures Members(linearized[..]) == Done(v'.ops)
  {
    hide Headed, Left, Reads, SearchInv, CursorOk, LinksOk, Chain, Shape, Liftable, LiftedLinks, StackOk, Members, Done;
    TopOfStack(m, all, es, g, v, calls);
    ghost var d := |calls| - 1;
    ghost var x := v.ops[d];
    ghost var k := PopGood(m, es, g, v, r);
    v' := Popped(es, v, k);
    Clear(linearized, top.entry.id);
    DistinctNodes(all, es, g);
    Unlift(top.entry, all, v.links[d], g[x].call + 1, g[x].ret + 1);
    PopList(m, all, es, g, v, k, x, top, calls[..d]);
    entry' := top.entry.next;
  }

  lemma PopList<S(!new), I, O>(
    m: Model<S, I, O>, all: seq<Node<Value<I, O>>>, es: seq<Entry<I, O>>, g: seq<Operation<I, O>>, v: View<S>, k: nat,
    x: nat, top: CallsEntry<I, O, S>, calls: seq<CallsEntry<I, O, S>>)
    requires |all| == |es| + 1 && |v.ops| == |v.states| - 1 == |v.links| - 1 > 0 && Good(m, es, g, Popped(es, v, k))
    requires AtCall(all, g, top.entry, x) && top.state == v.states[|v.ops| - 1] && Shape(all, v.links[|v.ops| - 1])
    requires StackOk(all, g, Popped(es, v, 0), calls)
    requires var pos := List(es, v.ops[..|v.ops| - 1]); k + 1 < |pos| && pos[k] == g[x].call + 1
    ensures ListOk(all, es, g, Popped(es, v, k), top.entry.next, top.state, calls)
  {
    hide Left, Shape, Reads, SearchInv, CursorOk, Chain;
    var v' := Popped(es, v, k);
    assert v'.ops[..|v'.ops|] == v'.ops;
    assert Chain(v'.links[|v'.ops|], List(es, v'.ops[..|v'.ops|]), |es| + 1);
    NextInList(all, v'.links[|v'.ops|], List(es, v'.ops), k);
  }

  /** Strictly closer to the end of the search, in the order (unknown pairs, depth, distance to the end of the list). */
  ghost predicate Closer<S, I, O>(
    m: Model<S, I, O>, es: seq<Entry<I, O>>, g: seq<Operation<I, O>>, v': View<S>, v: View<S>) {
    || Unknown(m, g, v'.known) < Unknown(m, g, v.known)
    || (v'.known == v.known && |v'.ops| < |v.ops|)
    || (v'.known == v.known && v'.ops == v.ops && v.at < v'.at <= |List(es, v.ops)|)
  }

  lemma PushCloser<S(!new), I, O>(
    m: Model<S, I, O>, es: seq<Entry<I, O>>, g: seq<Operation<I, O>>, v: View<S>, v': View<S>, state: S, x: nat)
    requires Good(m, es, g, v) && Good(m, es, g, v') && CallAt(es, g, v, x) && |v.states| == |v.ops| + 1
    requires state == v.states[|v.ops|]
    requires Accepts(m, g, state, x)
    requires var next := Succ(m, g, Config(Done(v.ops), state), x);
             && next !in v.known && v'.known == v.known + {next} && v'.ops == v.ops + [x]
             && v'.states == v.states + [next.state]
    ensures Closer(m, es, g, v', v)
  {
    hide Left, LinksOk, Reads, Reach, Accepts, Succ, Explored;
    PushCandidate(es, g, v.ops, v.at, x);
    assert v.ops[..|v.ops|] == v.ops;
    FewerUnknown(m, g, v.ops, v.states, v.known, x);
  }

  /** One turn of the loop over a call: enter it, or pass over it. */
  method TryCall<S(==, !new), I, O>(
    m: Model<S, I, O>, headEntry: Node<Value<I, O>>, entry: Node<Value<I, O>>, state: S,
    calls: seq<CallsEntry<I, O, S>>,
    linearized: array<bv64>, cache: map<Hashed, seq<CacheEntry<S>>>,
    ghost all: seq<Node<Value<I, O>>>, ghost es: seq<Entry<I, O>>, ghost g: seq<Operation<I, O>>, ghost v: View<S>,
    ghost owned: set<array<bv64>>)
    returns (
      entry': Node?<Value<I, O>>, state': S, calls': seq<CallsEntry<I, O, S>>, cache': map<Hashed, seq<CacheEntry<S>>>,
      ghost v': View<S>, ghost owned': set<array<bv64>>)
    requires Headed(all, es, g) && Good(m, es, g, v) && ListOk(all, es, g, v, entry, state, calls)
    requires MemoryOk(v, |g|, linearized, cache, owned)
    requires CallAt(es, g, v, entry.id) && AtCall(all, g, entry, entry.id) && headEntry == all[0]
    modifies all, linearized
    ensures Good(m, es, g, v') && ListOk(all, es, g, v', entry', state', calls')
    ensures MemoryOk(v', |g|, linearized, cache', owned') && Closer(m, es, g, v', v)
  {
    hide Headed, Left, Reads, SearchInv, CursorOk, LinksOk, Chain, Shape, StackOk, Members, Done, Holds, Unknown;
    ghost var x := entry.id;
    ghost var next := Succ(m, g, Config(Done(v.ops), state), x);
    assert v.ops[..|v.ops|] == v.ops;
    var mate := entry.mate;
    var (ok, newState) := m.step(state, entry.value.input, mate.value.output);
    cache', owned' := cache, owned;
    if ok {
      var seen;
      seen, cache', owned' := Remember(linearized, entry.id, newState, cache, v.known, owned);
      if !seen {
        calls', state' := calls + [CallsEntry(entry, state)], newState;
        entry', v' := Enter(m, headEntry, entry, linearized, all, es, g, v, state, calls);
        PushCloser(m, es, g, v, v', state, x);
        return;
      }
      assert v.known + {next} == v.known;
    }
    AdvanceGood(m, es, g, v, x);
    AdvanceList(m, all, es, g, v, entry, state, calls);
    entry', state', calls', v' := entry.next, state, calls, v.(at := v.at + 1);
  }

  /** Distance from the cursor to the end of the list. */
  ghost function Ahead<S, I, O>(es: seq<Entry<I, O>>, v: View<S>): nat {
    if v.at <= |List(es, v.ops)| then |List(es, v.ops)| - v.at else 0
  }

  /** The loop goes on exactly while the list has a node besides the head. */
  lemma HeadNext<S(!new), I, O>(
    m: Model<S, I, O>, all: seq<Node<Value<I, O>>>, es: seq<Entry<I, O>>, g: seq<Operation<I, O>>, v: View<S>,
    entry: Node?<Value<I, O>>, state: S, calls: seq<CallsEntry<I, O, S>>)
    requires Good(m, es, g, v) && ListOk(all, es, g, v, entry, state, calls)
    ensures |calls| == |v.ops| && |all| > 0 && (all[0].next != null <==> |List(es, v.ops)| > 1)
    ensures |List(es, v.ops)| > 1 ==> entry != null && 1 <= v.at < |List(es, v.ops)|
    ensures |List(es, v.ops)| >= 1
  {
    hide Left, Shape, Reads, SearchInv, Chain;
    LeftAre(es, Done(v.ops), |es|);
    assert v.ops[..|v.ops|] == v.ops;
    assert Chain(v.links[|v.ops|], List(es, v.ops[..|v.ops|]), |es| + 1);
    NextInList(all, v.links[|v.ops|], List(es, v.ops), 0);
  }

  lemma CarriesSize<I, O>(nodes: seq<Node<Value<I, O>>>, es: seq<Entry<I, O>>, g: seq<Operation<I, O>>)
    requires Carries(nodes, es, g, 0)
    ensures Reads(es, g) && |nodes| == |es| == 2 * |g|
  {
  }

  lemma StartList<S(!new), I, O>(
    m: Model<S, I, O>, head: Node<Value<I, O>>, nodes: seq<Node<Value<I, O>>>, es: seq<Entry<I, O>>,
    g: seq<Operation<I, O>>,
    entry: Node?<Value<I, O>>)
    requires Carries(nodes, es, g, 0) && Distinct([head] + nodes) && Shape([head] + nodes, Line(|es| + 1))
    requires entry == NodeAt(nodes, 0)
    ensures var v := View([], [m.init], [Line(|es| + 1)], {}, 1);
            Headed([head] + nodes, es, g) && Good(m, es, g, v) && ListOk([head] + nodes, es, g, v, entry, m.init, [])
  {
    hide Left, Shape, Reads, SearchInv, Chain, Carries, Line, CursorOk, Distinct;
    var all, v := [head] + nodes, View([], [m.init], [Line(|es| + 1)], {}, 1);
    assert all[1..] == nodes;
    CarriesSize(nodes, es, g);
    StartGood(m, es, g);
    FirstNode(head, nodes);
    PushList(m, all, es, g, v, m.init, []);
  }

  lemma FirstNode<V>(head: Node<V>, nodes: seq<Node<V>>)
    requires Shape([head] + nodes, Line(|nodes| + 1))
    ensures head.next == NodeAt(nodes, 0)
  {
    var all := [head] + nodes;
    RowShape(all);
    assert InRow(all, 0, null);
  }

  /**
   The search. `kill(i)` is what the `i`-th look at the kill flag sees, and
   `seen` the last look taken. An answer `true` is always right; `false` is
   wrong only if that look saw the flag set.
   */
  method CheckSingle<S(==, !new), I, O>(
    m: Model<S, I, O>, subhistory: Node?<Value<I, O>>, kill: nat -> bool,
    ghost nodes: seq<Node<Value<I, O>>>, ghost es: seq<Entry<I, O>>, ghost g: seq<Operation<I, O>>)
    returns (ok: bool, ghost seen: nat)
    requires Distinct(nodes) && Shape(nodes, Line(|nodes|)) && subhistory == NodeAt(nodes, 0)
    requires Carries(nodes, es, g, 0)
    modifies nodes
    ensures ok ==> Linearizable(m, g)
    ensures !ok ==> !Linearizable(m, g) || kill(seen)
  {
    hide Headed, Left, Reads, Carries, Good, Chain, Shape, Line, ListOk, Members, Done, Holds, Unknown, Linearizable,
        Distinct, NodeAt;
    CarriesSize(nodes, es, g);
    var len := Length(subhistory, nodes);
    var linearized := NewBitset(len / 2);
    var cache: map<Hashed, seq<CacheEntry<S>>> := map[];
    var calls: seq<CallsEntry<I, O, S>> := [];
    var state := m.init;
    var head := new Node(NoValue, null, 0xFFFF_FFFF_FFFF_FFFF);
    var headEntry := Prepend(head, subhistory, nodes);
    var entry := subhistory;
    ghost var all, owned := [head] + nodes, {};
    ghost var v := View([], [m.init], [Line(|es| + 1)], {}, 1);
    StartList(m, head, nodes, es, g, entry);
    EmptyHolds<S>(linearized.Length);
    var looks := 0;
    seen := 0;
    while headEntry.next != null
      invariant headEntry == all[0] && Headed(all, es, g) && Good(m, es, g, v)
      invariant ListOk(all, es, g, v, entry, state, calls)
      invariant fresh(linearized) && MemoryOk(v, |g|, linearized, cache, owned)
      decreases Unknown(m, g, v.known), |v.ops|, Ahead(es, v)
    {
      HeadNext(m, all, es, g, v, entry, state, calls);
      seen := looks;
      if kill(looks) {
        ok := false;
        return;
      }
      looks := looks + 1;
      CallNode(m, all, es, g, v, entry, state, calls);
      if entry.mate != null {
        entry, state, calls, cache, v, owned :=
            TryCall(m, headEntry, entry, state, calls, linearized, cache, all, es, g, v, owned);
      } else {
        if |calls| == 0 {
          FailRejects(m, es, g, v, entry.id);
          ok := false;
          return;
        }
        var top := calls[|calls| - 1];
        entry, v := Backtrack(m, linearized, top, entry.id, all, es, g, v, entry, state, calls);
        state, calls := top.state, calls[..|calls| - 1];
      }
    }
    HeadNext(m, all, es, g, v, entry, state, calls);
    EndAccepts(m, es, g, v);
    ok := true;
  }

  lemma EmptyHolds<S>(len: nat)
    ensures Holds<S>(map[], {}, len, {}) && Done([]) == {}
  {
  }
}
