/** Histories given as events: renumbering their ids, and checking them. */
module Events {
  import opened History
  import opened EventList
  import opened Entries
  import opened Checker
  import opened Locality

  datatype Event<I, O> = Event(isReturn: bool, value: Value<I, O>, id: nat)

  /** The events are the calls and returns of `g`, listed there in call order; `ids[x]` names operation `x`. */
  ghost predicate Records<I, O>(evs: seq<Event<I, O>>, g: seq<Operation<I, O>>, ids: seq<nat>) {
    && |evs| == 2 * |g| && |ids| == |g| && Apart(ids)
    && (forall x :: 0 <= x < |g| ==>
          && 0 <= g[x].call < g[x].ret < |evs|
          && evs[g[x].call] == Event(false, In(g[x].input), ids[x])
          && evs[g[x].ret] == Event(true, Out(g[x].output), ids[x]))
    && (forall x, y :: 0 <= x < y < |g| ==> g[x].call < g[y].call)
    && (forall p :: 0 <= p < |evs| ==> Owned(g, p))
  }

  /** Position `p` is the call or the return of some operation. */
  ghost predicate Owned<I, O>(g: seq<Operation<I, O>>, p: nat) {
    exists x :: 0 <= x < |g| && (p == g[x].call || p == g[x].ret)
  }

  /** The ids of the first `n` events, in order of first appearance. */
  function Names<I, O>(evs: seq<Event<I, O>>, n: nat): seq<nat>
    requires n <= |evs|
  {
    if n == 0 then []
    else
      var names := Names(evs, n - 1);
      if evs[n - 1].id in names then names else names + [evs[n - 1].id]
  }

  /** `r` is `evs` with every id replaced by its place among the names. */
  ghost predicate Renumbered<I, O>(evs: seq<Event<I, O>>, r: seq<Event<I, O>>, names: seq<nat>) {
    && |r| == |evs| && Apart(names)
    && (forall p :: 0 <= p < |r| ==>
          && r[p].isReturn == evs[p].isReturn && r[p].value == evs[p].value
          && r[p].id < |names| && names[r[p].id] == evs[p].id)
  }

  /** `m` maps every name to its place. */
  ghost predicate Indexes(m: map<nat, nat>, names: seq<nat>) {
    && (forall v :: v in m ==> m[v] < |names| && names[m[v]] == v)
    && (forall v :: v in names ==> v in m)
  }

  lemma IndexesMore(m: map<nat, nat>, names: seq<nat>, v: nat)
    requires Indexes(m, names) && v !in m
    ensures Indexes(m[v := |names|], names + [v]) && v !in names
  {
  }

  lemma NothingRenumbered<I, O>(evs: seq<Event<I, O>>)
    ensures Renumbered(evs[..0], [], []) && Indexes(map[], [])
  {
  }

  lemma RenumberOld<I, O>(evs: seq<Event<I, O>>, i: nat, r: seq<Event<I, O>>, names: seq<nat>, k: nat)
    requires i < |evs| && Renumbered(evs[..i], r, names) && k < |names| && names[k] == evs[i].id
    ensures Renumbered(evs[..i + 1], r + [Event(evs[i].isReturn, evs[i].value, k)], names)
  {
    assert evs[..i + 1] == evs[..i] + [evs[i]];
  }

  lemma RenumberNew<I, O>(evs: seq<Event<I, O>>, i: nat, r: seq<Event<I, O>>, names: seq<nat>)
    requires i < |evs| && Renumbered(evs[..i], r, names)
    ensures evs[i].id !in names ==>
            Renumbered(evs[..i + 1], r + [Event(evs[i].isReturn, evs[i].value, |names|)], names + [evs[i].id])
  {
    assert evs[..i + 1] == evs[..i] + [evs[i]];
  }

  lemma SameIds<I, O>(evs: seq<Event<I, O>>, r: seq<Event<I, O>>, names: seq<nat>)
    requires Renumbered(evs, r, names)
    ensures |r| == |evs| && forall p, q :: 0 <= p < |r| && 0 <= q < |r| ==>
            (r[p].id == r[q].id <==> evs[p].id == evs[q].id)
  {
    forall p, q | 0 <= p < |r| && 0 <= q < |r| ensures r[p].id == r[q].id <==> evs[p].id == evs[q].id {
      assert names[r[p].id] == evs[p].id && names[r[q].id] == evs[q].id;
    }
  }

  lemma InIndexes(m: map<nat, nat>, names: seq<nat>, v: nat)
    requires Indexes(m, names)
    ensures v in m <==> v in names
    ensures v in m ==> m[v] < |names| && names[m[v]] == v
  {
  }

  method Renumber<I, O>(evs: seq<Event<I, O>>) returns (r: seq<Event<I, O>>)
    ensures Renumbered(evs, r, Names(evs, |evs|))
    ensures forall p, q :: 0 <= p < |r| && 0 <= q < |r| ==> (r[p].id == r[q].id <==> evs[p].id == evs[q].id)
  {
    hide Renumbered, Indexes;
    NothingRenumbered(evs);
    r := [];
    var m: map<nat, nat> := map[];
    var id := 0;
    for i := 0 to |evs|
      invariant var names := Names(evs, i); Renumbered(evs[..i], r, names) && id == |names|
      invariant Indexes(m, Names(evs, i))
    {
      ghost var names := Names(evs, i);
      var e := evs[i];
      InIndexes(m, names, e.id);
      if e.id in m {
        RenumberOld(evs, i, r, names, m[e.id]);
        r := r + [Event(e.isReturn, e.value, m[e.id])];
      } else {
        RenumberNew(evs, i, r, names);
        IndexesMore(m, names, e.id);
        r := r + [Event(e.isReturn, e.value, id)];
        m := m[e.id := id];
        id := id + 1;
      }
    }
    assert evs[..|evs|] == evs;
    SameIds(evs, r, Names(evs, |evs|));
  }

  /** How many operations have been called among the first `n` events: those below `k`. */
  ghost predicate Called<I, O>(g: seq<Operation<I, O>>, n: nat, k: nat) {
    k <= |g| && (forall x :: 0 <= x < k ==> g[x].call < n) && (forall x :: k <= x < |g| ==> g[x].call >= n)
  }

  /** Ids appear first at calls, so the names are the ids in call order. */
  lemma {:induction false} NamesAreIds<I, O>(
    evs: seq<Event<I, O>>, g: seq<Operation<I, O>>, ids: seq<nat>, n: nat, k: nat)
    requires Records(evs, g, ids) && n <= |evs| && Called(g, n, k)
    ensures k <= |ids| && Names(evs, n) == ids[..k]
    decreases n
  {
    hide Records, Called;
    if n == 0 {
      NoneCalled(evs, g, ids, k);
    } else {
      var x := OwnerOf(evs, g, ids, n - 1);
      if n - 1 == g[x].call {
        CallIsNew(evs, g, ids, n, k, x);
        NamesAreIds(evs, g, ids, n - 1, k - 1);
        assert ids[..k] == ids[..k - 1] + [ids[k - 1]];
      } else {
        ReturnIsOld(evs, g, ids, n, k, x);
        NamesAreIds(evs, g, ids, n - 1, k);
      }
    }
  }

  lemma NoneCalled<I, O>(evs: seq<Event<I, O>>, g: seq<Operation<I, O>>, ids: seq<nat>, k: nat)
    requires Records(evs, g, ids) && Called(g, 0, k)
    ensures k == 0
  {
    hide Records;
    if k > 0 {
      CallNotNegative(evs, g, ids, 0);
    }
  }

  lemma CallNotNegative<I, O>(evs: seq<Event<I, O>>, g: seq<Operation<I, O>>, ids: seq<nat>, x: nat)
    requires Records(evs, g, ids) && x < |g|
    ensures g[x].call >= 0
  {
  }

  lemma OwnerOf<I, O>(evs: seq<Event<I, O>>, g: seq<Operation<I, O>>, ids: seq<nat>, p: nat) returns (x: nat)
    requires Records(evs, g, ids) && p < |evs|
    ensures x < |g| == |ids| && (p == g[x].call || p == g[x].ret)
  {
    assert Owned(g, p);
    x :| 0 <= x < |g| && (p == g[x].call || p == g[x].ret);
  }

  lemma CallIsNew<I, O>(evs: seq<Event<I, O>>, g: seq<Operation<I, O>>, ids: seq<nat>, n: nat, k: nat, x: nat)
    requires Records(evs, g, ids) && 0 < n <= |evs| && Called(g, n, k) && x < |g| && g[x].call == n - 1
    ensures x == k - 1 && k <= |g| == |ids| && Called(g, n - 1, k - 1) && evs[n - 1].id == ids[k - 1]
    ensures ids[k - 1] !in ids[..k - 1]
  {
    assert forall y :: 0 <= y < k - 1 ==> g[y].call < g[k - 1].call;
  }

  lemma ReturnIsOld<I, O>(evs: seq<Event<I, O>>, g: seq<Operation<I, O>>, ids: seq<nat>, n: nat, k: nat, x: nat)
    requires Records(evs, g, ids) && 0 < n <= |evs| && Called(g, n, k) && x < |g| && g[x].ret == n - 1
    ensures k <= |g| == |ids| && Called(g, n - 1, k) && evs[n - 1].id in ids[..k]
  {
    assert evs[n - 1].isReturn;
    forall y | 0 <= y < k ensures g[y].call < n - 1 {
      assert !evs[g[y].call].isReturn;
    }
    assert ids[..k][x] == ids[x];
  }

  function Convert<I, O>(evs: seq<Event<I, O>>): seq<Entry<I, O>> {
    seq(|evs|, p requires 0 <= p < |evs| => Entry(evs[p].isReturn, evs[p].value, evs[p].id, -1))
  }

  /** After renumbering, operation `x` has id `x`. */
  lemma RenumberedReads<I, O>(evs: seq<Event<I, O>>, r: seq<Event<I, O>>, g: seq<Operation<I, O>>, ids: seq<nat>)
    requires Records(evs, g, ids) && Renumbered(evs, r, ids)
    ensures Reads(Convert(r), g)
  {
    var es := Convert(r);
    forall x | 0 <= x < |g| ensures IsCall(es[g[x].call], x, g[x].input) && IsReturn(es[g[x].ret], x, g[x].output) {
      assert ids[r[g[x].call].id] == ids[x] && ids[r[g[x].ret].id] == ids[x];
    }
    forall p | 0 <= p < |es|
      ensures es[p].id < |g| && p == if es[p].isReturn then g[es[p].id].ret else g[es[p].id].call
    {
      assert Owned(g, p);
      var x :| 0 <= x < |g| && (p == g[x].call || p == g[x].ret);
    }
  }

  /** A history of events, renumbered, linked and searched in one piece. */
  method CheckEvents<S(==, !new), I, O>(
    m: Model<S, I, O>, evs: seq<Event<I, O>>, kill: nat -> bool, ghost g: seq<Operation<I, O>>, ghost ids: seq<nat>)
    returns (ok: bool, ghost seen: nat)
    requires Records(evs, g, ids)
    ensures ok ==> Linearizable(m, g)
    ensures !ok ==> !Linearizable(m, g) || kill(seen)
  {
    hide Records, Renumbered, Reads, Carries, Shape, Line, Linearizable;
    var r := Renumber(evs);
    AllCalled(evs, g, ids);
    NamesAreIds(evs, g, ids, |evs|, |g|);
    assert ids[..|g|] == ids;
    RenumberedReads(evs, r, g, ids);
    var l, nodes := LinkEntries(Convert(r), g);
    ok, seen := CheckSingle(m, l, kill, nodes, Convert(r), g);
  }

  lemma AllCalled<I, O>(evs: seq<Event<I, O>>, g: seq<Operation<I, O>>, ids: seq<nat>)
    requires Records(evs, g, ids)
    ensures Called(g, |evs|, |g|) && |ids| == |g|
  {
  }
}
