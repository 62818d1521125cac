/**
 Every run of the service is linearizable: a write takes effect at the first
 entry of its command, a read right behind the prefix it was answered from.
 */
module KvLinear {
  import opened RaftTypes
  import opened KvStore
  import opened History
  import opened Locality
  import opened KvService
  import opened Ranking

  function InputOf(op: Op): KvInput {
    KvInput(match op.kind case Get => 0 case Put => 1 case Append => 2, op.key, op.val)
  }

  /** What the clerk recorded; a call still pending counts as returning now, a read with the value it would get. */
  function OperationOf(v: Service, r: Record): Operation<KvInput, KvOutput> {
    var value := if r.op.kind != Get then "" else if r.done then r.value else Read(v.log, |v.log|, r.op.key);
    Operation(InputOf(r.op), r.call, KvOutput(value), if r.done then r.ret else v.now)
  }

  function HistoryOf(v: Service): KvHistory {
    seq(|v.recs|, x requires 0 <= x < |v.recs| => OperationOf(v, v.recs[x]))
  }

  /** The first entry from `i` on that is `op`, or the end of the log. */
  function FirstFrom(log: seq<Op>, op: Op, i: nat): (f: nat)
    requires i <= |log|
    ensures i <= f <= |log| && (f < |log| ==> log[f] == op) && forall j :: i <= j < f ==> log[j] != op
    decreases |log| - i
  {
    if i < |log| && log[i] != op then FirstFrom(log, op, i + 1) else i
  }

  /** Even for writes, odd for reads; what the log does not decide comes last. */
  function Rank(v: Service, r: Record): nat {
    if r.op.kind == Get then
      if r.done then 2 * r.prefix + 1 else 2 * |v.log| + 2
    else
      var f := FirstFrom(v.log, r.op, 0);
      if f < |v.log| then 2 * (f + 1) else 2 * |v.log| + 3
  }

  function Ranks(v: Service): seq<nat> {
    seq(|v.recs|, x requires 0 <= x < |v.recs| => Rank(v, v.recs[x]))
  }

  // ---------------------------------------------------------------- real time

  lemma RankBounds(v: Service, r: Record)
    requires RecordOk(v.log, v.now, r)
    ensures Rank(v, r) < 2 * |v.log| + 4
    ensures r.done ==> Rank(v, r) <= 2 * r.last + 1
  {
    if r.done {
      assert AnswerOk(v.log, r.op, Answer(r.prefix, r.value));
      var i :| 0 <= i < r.prefix && v.log[i] == r.op;
    }
  }

  /** A call is ranked behind the log it started from. */
  lemma RankAfterBirth(v: Service, x: nat)
    requires Inv(v) && x < |v.recs|
    ensures Rank(v, v.recs[x]) >= 2 * v.recs[x].born + 2
  {
    var r := v.recs[x];
    assert RecordOk(v.log, v.now, r);
    if r.op.kind == Get && r.done {
      assert AnswerOk(v.log, r.op, Answer(r.prefix, r.value));
      var i :| 0 <= i < r.prefix && v.log[i] == r.op;
      EntryAfterBirth(v, x, i);
    } else if r.op.kind != Get && FirstFrom(v.log, r.op, 0) < |v.log| {
      EntryAfterBirth(v, x, FirstFrom(v.log, r.op, 0));
    }
  }

  lemma EntryAfterBirth(v: Service, x: nat, i: nat)
    requires Inv(v) && x < |v.recs| && i < |v.log| && v.log[i] == v.recs[x].op
    ensures i >= v.recs[x].born
  {
    assert EntryOk(v.recs, i, v.log[i]);
    var y :| 0 <= y < |v.recs| && v.recs[y].op == v.log[i] && v.recs[y].born <= i;
    assert y < x ==> Sequential(v.recs[y], v.recs[x]);
    assert x < y ==> Sequential(v.recs[x], v.recs[y]);
  }

  /** A call that returned before another was made has the smaller rank. */
  lemma RanksFollowTime(v: Service, x: nat, y: nat)
    requires Inv(v) && x < |v.recs| && y < |v.recs|
    requires HistoryOf(v)[x].ret < HistoryOf(v)[y].call
    ensures Ranks(v)[x] < Ranks(v)[y]
  {
    assert RecordOk(v.log, v.now, v.recs[x]) && RecordOk(v.log, v.now, v.recs[y]) && Later(v.recs[x], v.recs[y]);
    RankBounds(v, v.recs[x]);
    RankAfterBirth(v, y);
  }

  lemma OrderRespectsTime(v: Service, order: seq<nat>, r: nat)
    requires Inv(v) && Arranged(Ranks(v), order, r)
    ensures RespectsTime(HistoryOf(v), order)
  {
    forall i, j | 0 <= i < j < |order| && order[i] < |v.recs| && order[j] < |v.recs|
      ensures !(HistoryOf(v)[order[j]].ret < HistoryOf(v)[order[i]].call)
    {
      if HistoryOf(v)[order[j]].ret < HistoryOf(v)[order[i]].call {
        RanksFollowTime(v, order[j], order[i]);
      }
    }
  }

  // ---------------------------------------------------------------- legality

  /** The operations at `order` are legal from `st` and end in `st'`. */
  ghost predicate Leads(v: Service, st: map<string, string>, order: seq<nat>, st': map<string, string>) {
    && (forall i :: 0 <= i < |order| ==> order[i] < |v.recs|)
    && Legal(MAP_MODEL, HistoryOf(v), st, order) && Final(MAP_MODEL, HistoryOf(v), st, order) == st'
  }

  lemma LeadsOn(
    v: Service, st: map<string, string>, a: seq<nat>, mid: map<string, string>, b: seq<nat>, st': map<string, string>)
    requires Leads(v, st, a, mid) && Leads(v, mid, b, st')
    ensures Leads(v, st, a + b, st')
  {
    LegalAppend(MAP_MODEL, HistoryOf(v), st, a, b);
  }

  /** Reads of one database state, in any number and order. */
  lemma {:induction false} ReadsLead(v: Service, st: map<string, string>, order: seq<nat>)
    requires forall i :: 0 <= i < |order| ==> order[i] < |v.recs|
    requires forall i :: 0 <= i < |order| ==>
               v.recs[order[i]].op.kind == Get
               && HistoryOf(v)[order[i]].output.value == Lookup(st, v.recs[order[i]].op.key)
    ensures Leads(v, st, order, st)
    decreases |order|
  {
    if order != [] {
      ReadsLead(v, st, order[1..]);
    }
  }

  lemma {:induction false} WritesLead(
    v: Service, st: map<string, string>, order: seq<nat>) returns (st': map<string, string>)
    requires forall i :: 0 <= i < |order| ==> order[i] < |v.recs| && v.recs[order[i]].op.kind != Get
    ensures Leads(v, st, order, st')
    decreases |order|
  {
    if order != [] {
      var o := HistoryOf(v)[order[0]];
      var mid := MapStep(st, o.input, o.output).1;
      st' := WritesLead(v, mid, order[1..]);
    } else {
      st' := st;
    }
  }

  /** One write does to the map what the store does to its database. */
  lemma WriteLeads(v: Service, st: map<string, string>, x: nat)
    requires x < |v.recs| && v.recs[x].op.kind != Get
    ensures Leads(v, st, [x], Write(st, v.recs[x].op))
  {
    assert [x][1..] == [];
  }

  function RankBucket(v: Service, r: nat): seq<nat> {
    Bucket(Ranks(v), r, |v.recs|)
  }

  lemma InRankBucket(v: Service, r: nat)
    ensures forall x: nat :: x in RankBucket(v, r) <==> x < |v.recs| && Rank(v, v.recs[x]) == r
    ensures forall i, j :: 0 <= i < j < |RankBucket(v, r)| ==> RankBucket(v, r)[i] != RankBucket(v, r)[j]
    ensures forall i :: 0 <= i < |RankBucket(v, r)| ==>
            RankBucket(v, r)[i] < |v.recs| && Rank(v, v.recs[RankBucket(v, r)[i]]) == r
  {
    InBucket(Ranks(v), r, |v.recs|);
    var b := RankBucket(v, r);
    forall i | 0 <= i < |b| ensures b[i] < |v.recs| && Rank(v, v.recs[b[i]]) == r {
      assert b[i] in b && Ranks(v)[b[i]] == r;
    }
  }

  /** The reads answered from the first `n` commands. */
  lemma ReadBucket(v: Service, n: nat)
    requires Inv(v) && n <= |v.log|
    ensures Leads(v, Fold(v.log, n).db, RankBucket(v, 2 * n + 1), Fold(v.log, n).db)
  {
    var b := RankBucket(v, 2 * n + 1);
    InRankBucket(v, 2 * n + 1);
    hide Fold, FirstFrom, Legal, Final;
    forall i | 0 <= i < |b|
      ensures v.recs[b[i]].op.kind == Get
      ensures HistoryOf(v)[b[i]].output.value == Lookup(Fold(v.log, n).db, v.recs[b[i]].op.key)
    {
      var r := v.recs[b[i]];
      assert RecordOk(v.log, v.now, r);
      assert r.op.kind == Get && r.done && r.prefix == n;
      assert AnswerOk(v.log, r.op, Answer(r.prefix, r.value));
    }
    ReadsLead(v, Fold(v.log, n).db, b);
  }

  lemma SameEntry(v: Service, i: nat, j: nat)
    requires Inv(v) && i < |v.log| && j < |v.log| && SameCommand(v.log[i], v.log[j])
    ensures v.log[i] == v.log[j]
  {
    assert EntryOk(v.recs, i, v.log[i]) && EntryOk(v.recs, j, v.log[j]);
    var x :| 0 <= x < |v.recs| && v.recs[x].op == v.log[i] && v.recs[x].born <= i;
    var y :| 0 <= y < |v.recs| && v.recs[y].op == v.log[j] && v.recs[y].born <= j;
    assert y < x ==> Sequential(v.recs[y], v.recs[x]);
    assert x < y ==> Sequential(v.recs[x], v.recs[y]);
  }

  /** Position `i` is where the search for the first entry of its command ends. */
  lemma FirstIsFirst(v: Service, i: nat)
    requires Inv(v) && i < |v.log|
    ensures First(v.log, i) <==> FirstFrom(v.log, v.log[i], 0) == i
  {
    var f := FirstFrom(v.log, v.log[i], 0);
    assert f <= i;
    forall j | 0 <= j < i && SameCommand(v.log[j], v.log[i]) ensures v.log[j] == v.log[i] {
      SameEntry(v, j, i);
    }
  }

  lemma Singleton(b: seq<nat>, x: nat)
    requires (forall y: nat :: y in b <==> y == x) && forall i, j :: 0 <= i < j < |b| ==> b[i] != b[j]
    ensures b == [x]
  {
    assert x in b;
    assert forall i :: 0 <= i < |b| ==> b[i] in b;
    var j := |b| - 1;
    assert b[0] == x && b[j] == x;
  }

  /** Only the owner of entry `i` can be ranked there, and is if it is a write and the entry its first. */
  lemma WriteBucketHas(v: Service, i: nat, x: nat, y: nat)
    requires Inv(v) && i < |v.log| && x < |v.recs| && v.recs[x].op == v.log[i]
    ensures y in RankBucket(v, 2 * (i + 1)) <==> y == x && v.log[i].kind != Get && First(v.log, i)
  {
    InRankBucket(v, 2 * (i + 1));
    FirstIsFirst(v, i);
    hide First, RankBucket, Inv;
    if y < |v.recs| {
      RankAtEntry(v, y, i);
      if v.recs[y].op == v.log[i] {
        SameRecord(v, x, y);
      }
    }
  }

  /** The write that takes effect at entry `n`, if there is one. */
  lemma WriteBucket(v: Service, n: nat)
    requires Inv(v) && 0 < n <= |v.log|
    ensures Leads(v, Fold(v.log, n - 1).db, RankBucket(v, 2 * n), Fold(v.log, n).db)
  {
    hide InOrder, Leads, First, Inv, RankBucket, Effective;
    var i, op, b := n - 1, v.log[n - 1], RankBucket(v, 2 * n);
    var x := OwnerOf(v, i);
    InRankBucket(v, 2 * n);
    LogInOrder(v);
    FirstsAreEffective(v.log, i);
    StoreStep(v.log, i);
    forall y: nat ensures y in b <==> y == x && op.kind != Get && First(v.log, i) {
      WriteBucketHas(v, i, x, y);
    }
    if op.kind != Get && First(v.log, i) {
      Singleton(b, x);
      WriteLeads(v, Fold(v.log, i).db, x);
    } else {
      if b != [] {
        var y := SomeElement(b);
        assert false;
      }
      NothingLeads(v, Fold(v.log, i).db);
    }
  }

  lemma OwnerOf(v: Service, i: nat) returns (x: nat)
    requires Inv(v) && i < |v.log|
    ensures x < |v.recs| && v.recs[x].op == v.log[i]
  {
    assert EntryOk(v.recs, i, v.log[i]);
    x :| 0 <= x < |v.recs| && v.recs[x].op == v.log[i] && v.recs[x].born <= i;
  }

  /** What entry `i` does to the database. */
  lemma StoreStep(log: seq<Op>, i: nat)
    requires i < |log|
    ensures Effective(log, i) ==> Fold(log, i + 1).db == Write(Fold(log, i).db, log[i])
    ensures !Effective(log, i) || log[i].kind == Get ==> Fold(log, i + 1).db == Fold(log, i).db
  {
  }

  lemma SomeElement(b: seq<nat>) returns (y: nat)
    requires b != []
    ensures y in b
  {
    y := b[0];
  }

  lemma NothingLeads(v: Service, st: map<string, string>)
    ensures Leads(v, st, [], st)
  {
  }

  lemma SameRecord(v: Service, x: nat, y: nat)
    requires Inv(v) && x < |v.recs| && y < |v.recs| && v.recs[x].op == v.recs[y].op
    ensures x == y
  {
    assert y < x ==> Sequential(v.recs[y], v.recs[x]);
    assert x < y ==> Sequential(v.recs[x], v.recs[y]);
  }

  lemma RankAtEntry(v: Service, y: nat, i: nat)
    requires y < |v.recs| && i < |v.log|
    ensures Rank(v, v.recs[y]) == 2 * (i + 1) <==>
              v.recs[y].op.kind != Get && v.recs[y].op == v.log[i] && FirstFrom(v.log, v.log[i], 0) == i
  {
    hide Inv, FirstFrom;
    var f := FirstFrom(v.log, v.recs[y].op, 0);
  }

  /** Nothing is ranked 0. */
  lemma NoRankZero(v: Service)
    ensures RankBucket(v, 0) == []
  {
    InRankBucket(v, 0);
    hide RankBucket;
    if RankBucket(v, 0) != [] {
      var y := SomeElement(RankBucket(v, 0));
      assert false;
    }
  }

  /** Executed by rank, the calls follow the store through the agreed log. */
  lemma {:induction false} RanksLead(v: Service, n: nat)
    requires Inv(v) && n <= |v.log|
    ensures Leads(v, map[], ByRank(Ranks(v), 2 * n + 2), Fold(v.log, n).db)
    decreases n
  {
    hide Leads, RankBucket, Ranks;
    var before, middle := ByRank(Ranks(v), 2 * n), ByRank(Ranks(v), 2 * n + 1);
    RankSplits(v, 2 * n);
    RankSplits(v, 2 * n + 1);
    ReadBucket(v, n);
    if n == 0 {
      NoRankZero(v);
      NothingLeads(v, map[]);
      assert middle == [];
    } else {
      RanksLead(v, n - 1);
      assert 2 * (n - 1) + 2 == 2 * n;
      WriteBucket(v, n);
      LeadsOn(v, map[], before, Fold(v.log, n - 1).db, RankBucket(v, 2 * n), Fold(v.log, n).db);
    }
    LeadsOn(v, map[], middle, Fold(v.log, n).db, RankBucket(v, 2 * n + 1), Fold(v.log, n).db);
  }

  lemma RankSplits(v: Service, r: nat)
    ensures ByRank(Ranks(v), r + 1) == ByRank(Ranks(v), r) + RankBucket(v, r)
    ensures ByRank(Ranks(v), 0) == []
  {
    hide Bucket;
  }

  /** Calls that are still pending and that the log does not decide: reads of the present, then writes. */
  lemma PendingLead(v: Service) returns (st: map<string, string>)
    requires Inv(v)
    ensures Leads(v, map[], ByRank(Ranks(v), 2 * |v.log| + 4), st)
  {
    hide Leads, RankBucket, Ranks, Inv, ByRank, Fold;
    var n := |v.log|;
    var now := Fold(v.log, n).db;
    var pending, writes := RankBucket(v, 2 * n + 2), RankBucket(v, 2 * n + 3);
    PendingBuckets(v);
    RanksLead(v, n);
    ReadsLead(v, now, pending);
    RankSplits(v, 2 * n + 2);
    RankSplits(v, 2 * n + 3);
    LeadsOn(v, map[], ByRank(Ranks(v), 2 * n + 2), now, pending, now);
    st := WritesLead(v, now, writes);
    LeadsOn(v, map[], ByRank(Ranks(v), 2 * n + 3), now, writes, st);
  }

  lemma PendingBuckets(v: Service)
    requires Inv(v)
    ensures var b := RankBucket(v, 2 * |v.log| + 2);
            && (forall i :: 0 <= i < |b| ==> b[i] < |v.recs|)
            && (forall i :: 0 <= i < |b| ==>
                  v.recs[b[i]].op.kind == Get
                  && HistoryOf(v)[b[i]].output.value == Lookup(Fold(v.log, |v.log|).db, v.recs[b[i]].op.key))
    ensures var b := RankBucket(v, 2 * |v.log| + 3);
            forall i :: 0 <= i < |b| ==> b[i] < |v.recs| && v.recs[b[i]].op.kind != Get
  {
    InRankBucket(v, 2 * |v.log| + 2);
    InRankBucket(v, 2 * |v.log| + 3);
    hide RankBucket, Fold;
    forall x | 0 <= x < |v.recs| ensures v.recs[x].done ==> v.recs[x].prefix <= |v.log| {
      assert RecordOk(v.log, v.now, v.recs[x]);
    }
  }

  /** Every state the service can reach has a linearizable history. */
  lemma ServiceLinearizable(v: Service)
    requires Inv(v)
    ensures Linearizable(MAP_MODEL, HistoryOf(v))
  {
    var r := 2 * |v.log| + 4;
    var order := ByRank(Ranks(v), r);
    ByRankArranges(Ranks(v), r);
    OrderRespectsTime(v, order, r);
    forall x | 0 <= x < |v.recs| ensures Ranks(v)[x] < r {
      assert RecordOk(v.log, v.now, v.recs[x]);
      RankBounds(v, v.recs[x]);
    }
    var st := PendingLead(v);
    hide Ranks, ByRank, RespectsTime, Inv;
    assert Permutation(order, |v.recs|) by {
      assert Arranged(Ranks(v), order, r);
      assert forall i :: 0 <= i < |order| ==> order[i] in order;
    }
    assert Linearization(MAP_MODEL, HistoryOf(v), order);
  }

  lemma StartInv(servers: nat)
    ensures Inv(Start(servers))
  {
  }

  /** Every run of the service, seen at any moment, is linearizable. */
  lemma EveryRunLinearizable(servers: nat, run: seq<Step>)
    requires IsRun(Start(servers), run)
    ensures Linearizable(MAP_MODEL, HistoryOf(After(Start(servers), run)))
  {
    StartInv(servers);
    RunKeeps(Start(servers), run);
    ServiceLinearizable(After(Start(servers), run));
  }
}
