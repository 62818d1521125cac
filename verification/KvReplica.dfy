/**
 The replicas of the store over the agreed log: commands delivered one by one,
 snapshots taken, saved, sent and installed, and crashes that keep only what
 was saved.
 */
module KvReplica {
  import opened RaftTypes
  import opened KvStore

  /** A snapshot: the store after the first `index` commands, as its maker saw it. */
  datatype Saved = Saved(index: nat, store: Store)

  /**
   `compacting` are the calls of Compact on their way to Raft, `notices` the
   snapshots that Raft has installed and the service has not been given yet.
   */
  datatype Replica = Replica(
    store: Store, lastApplied: nat, snapshotIndex: nat, disk: Option<Store>, compacting: set<Saved>,
    notices: set<Saved>)

  datatype Cluster = Cluster(agreed: seq<Op>, replicas: seq<Replica>, sent: set<Saved>)

  datatype Step =
    | Commit(op: Op)
    | Deliver(r: nat, snapshot: bool)
    | Compact(r: nat, saved: Saved)
    | Send(r: nat)
    | Install(r: nat, saved: Saved)
    | Notify(r: nat, saved: Saved)
    | Restart(r: nat)

  const NEW_REPLICA := Replica(EMPTY, 0, 0, None, {}, {})

  /** How much of the agreed log Raft has handed to the service, or put into a snapshot for it. */
  function Covered(p: Replica): nat { Max(p.lastApplied, p.snapshotIndex) }

  predicate Enabled(c: Cluster, s: Step) {
    match s
    case Commit(_) => true
    case Deliver(r, _) => r < |c.replicas| && Covered(c.replicas[r]) < |c.agreed|
    case Compact(r, saved) => r < |c.replicas| && saved in c.replicas[r].compacting
    case Send(r) => r < |c.replicas| && c.replicas[r].disk.Some?
    case Install(r, saved) =>
      // the peer's commit index is at least its lastApplied
      r < |c.replicas| && saved in c.sent && saved.index > c.replicas[r].snapshotIndex
      && saved.index > c.replicas[r].lastApplied
    case Notify(r, saved) => r < |c.replicas| && saved in c.replicas[r].notices
    case Restart(r) => r < |c.replicas|
  }

  /** Nothing is handed to a service that still has an installed snapshot to come. */
  predicate Orderly(c: Cluster, s: Step) {
    match s
    case Deliver(r, _) => r < |c.replicas| ==> c.replicas[r].notices == {}
    case Install(r, _) => r < |c.replicas| ==> c.replicas[r].notices == {}
    case _ => true
  }

  /** The next command is applied; the server may then ask Raft to compact up to it. */
  function Delivered(p: Replica, op: Op, snapshot: bool): Replica {
    var store, i := ApplyOp(p.store, op), Covered(p) + 1;
    p.(store := store, lastApplied := i,
        compacting := if snapshot then p.compacting + {Saved(i, store)} else p.compacting)
  }

  function Compacted(p: Replica, saved: Saved): Replica {
    var q := p.(compacting := p.compacting - {saved});
    if saved.index <= p.snapshotIndex then q else q.(snapshotIndex := saved.index, disk := Some(saved.store))
  }

  function Installed(p: Replica, saved: Saved): Replica {
    p.(snapshotIndex := saved.index, disk := Some(saved.store), notices := p.notices + {saved})
  }

  function Notified(p: Replica, saved: Saved): Replica {
    p.(store := saved.store, notices := p.notices - {saved})
  }

  function Restarted(p: Replica): Replica {
    Replica(if p.disk.Some? then p.disk.value else EMPTY, 0, p.snapshotIndex, p.disk, {}, {})
  }

  function Do(c: Cluster, s: Step): Cluster
    requires Enabled(c, s)
  {
    match s
    case Commit(op) => c.(agreed := c.agreed + [op])
    case Deliver(r, snapshot) =>
      c.(replicas := c.replicas[r := Delivered(c.replicas[r], c.agreed[Covered(c.replicas[r])], snapshot)])
    case Compact(r, saved) => c.(replicas := c.replicas[r := Compacted(c.replicas[r], saved)])
    case Send(r) => c.(sent := c.sent + {Saved(c.replicas[r].snapshotIndex, c.replicas[r].disk.value)})
    case Install(r, saved) => c.(replicas := c.replicas[r := Installed(c.replicas[r], saved)])
    case Notify(r, saved) => c.(replicas := c.replicas[r := Notified(c.replicas[r], saved)])
    case Restart(r) => c.(replicas := c.replicas[r := Restarted(c.replicas[r])])
  }

  // ---------------------------------------------------------------- every replica is a fold of the agreed log

  predicate Genuine(log: seq<Op>, saved: Saved) {
    saved.index <= |log| && saved.store == Fold(log, saved.index)
  }

  ghost predicate ReplicaOk(log: seq<Op>, p: Replica) {
    && (p.notices == {} ==> Genuine(log, Saved(Covered(p), p.store)))
    && (forall saved :: saved in p.notices ==> Genuine(log, saved) && saved.index == Covered(p))
    && (p.disk.Some? ==> Genuine(log, Saved(p.snapshotIndex, p.disk.value)))
    && (p.disk.None? ==> p.snapshotIndex == 0)
    && (forall saved :: saved in p.compacting ==> Genuine(log, saved) && saved.index <= p.lastApplied)
  }

  ghost predicate Inv(c: Cluster) {
    && (forall r :: 0 <= r < |c.replicas| ==> ReplicaOk(c.agreed, c.replicas[r]))
    && (forall saved :: saved in c.sent ==> Genuine(c.agreed, saved))
  }

  lemma GenuineStays(log: seq<Op>, op: Op, saved: Saved)
    requires Genuine(log, saved)
    ensures Genuine(log + [op], saved)
  {
    assert (log + [op])[..|log|] == log;
    FoldPrefix(log, log + [op], saved.index);
  }

  lemma ReplicaStays(log: seq<Op>, op: Op, p: Replica)
    requires ReplicaOk(log, p)
    ensures ReplicaOk(log + [op], p)
  {
    hide Genuine;
    if p.notices == {} {
      GenuineStays(log, op, Saved(Covered(p), p.store));
    }
    forall saved | saved in p.notices ensures Genuine(log + [op], saved) {
      GenuineStays(log, op, saved);
    }
    if p.disk.Some? {
      GenuineStays(log, op, Saved(p.snapshotIndex, p.disk.value));
    }
    forall saved | saved in p.compacting ensures Genuine(log + [op], saved) {
      GenuineStays(log, op, saved);
    }
  }

  lemma DeliveredOk(log: seq<Op>, p: Replica, snapshot: bool)
    requires ReplicaOk(log, p) && Covered(p) < |log| && p.notices == {}
    ensures ReplicaOk(log, Delivered(p, log[Covered(p)], snapshot))
  {
  }

  lemma CompactedOk(log: seq<Op>, p: Replica, saved: Saved)
    requires ReplicaOk(log, p) && saved in p.compacting
    ensures ReplicaOk(log, Compacted(p, saved))
  {
  }

  lemma InstalledOk(log: seq<Op>, p: Replica, saved: Saved)
    requires ReplicaOk(log, p) && Genuine(log, saved) && saved.index > p.snapshotIndex && saved.index > p.lastApplied
    requires p.notices == {}
    ensures ReplicaOk(log, Installed(p, saved))
  {
  }

  lemma NotifiedOk(log: seq<Op>, p: Replica, saved: Saved)
    requires ReplicaOk(log, p) && saved in p.notices
    ensures ReplicaOk(log, Notified(p, saved))
  {
  }

  lemma RestartedOk(log: seq<Op>, p: Replica)
    requires ReplicaOk(log, p)
    ensures ReplicaOk(log, Restarted(p))
  {
  }

  lemma StepKeeps(c: Cluster, s: Step)
    requires Inv(c) && Enabled(c, s) && Orderly(c, s)
    ensures Inv(Do(c, s))
  {
    hide Genuine;
    match s {
      case Commit(op) =>
        forall r | 0 <= r < |c.replicas| ensures ReplicaOk(c.agreed + [op], c.replicas[r]) {
          ReplicaStays(c.agreed, op, c.replicas[r]);
        }
        forall saved | saved in c.sent ensures Genuine(c.agreed + [op], saved) {
          GenuineStays(c.agreed, op, saved);
        }
      case Deliver(r, snapshot) =>
        hide ReplicaOk;
        DeliveredOk(c.agreed, c.replicas[r], snapshot);
      case Compact(r, saved) =>
        hide ReplicaOk;
        CompactedOk(c.agreed, c.replicas[r], saved);
      case Send(r) =>
        assert ReplicaOk(c.agreed, c.replicas[r]);
      case Install(r, saved) =>
        hide ReplicaOk;
        InstalledOk(c.agreed, c.replicas[r], saved);
      case Notify(r, saved) =>
        hide ReplicaOk;
        NotifiedOk(c.agreed, c.replicas[r], saved);
      case Restart(r) =>
        hide ReplicaOk;
        RestartedOk(c.agreed, c.replicas[r]);
    }
  }

  ghost predicate IsRun(c: Cluster, run: seq<Step>)
    decreases |run|
  {
    run == [] || (Enabled(c, run[0]) && IsRun(Do(c, run[0]), run[1..]))
  }

  /** A run all of whose steps are orderly. */
  ghost predicate OrderlyRun(c: Cluster, run: seq<Step>)
    requires IsRun(c, run)
    decreases |run|
  {
    run == [] || (Orderly(c, run[0]) && OrderlyRun(Do(c, run[0]), run[1..]))
  }

  ghost function After(c: Cluster, run: seq<Step>): Cluster
    requires IsRun(c, run)
    decreases |run|
  {
    if run == [] then c else After(Do(c, run[0]), run[1..])
  }

  function Start(n: nat): Cluster {
    Cluster([], seq(n, _ => NEW_REPLICA), {})
  }

  lemma {:induction false} RunKeeps(c: Cluster, run: seq<Step>)
    requires Inv(c) && IsRun(c, run) && OrderlyRun(c, run)
    ensures Inv(After(c, run)) && |After(c, run).replicas| == |c.replicas|
    decreases |run|
  {
    if run != [] {
      StepKeeps(c, run[0]);
      RunKeeps(Do(c, run[0]), run[1..]);
    }
  }

  /**
   In every orderly run, a replica that has been given all its snapshots has the
   database and the duplicate table of the agreed log up to what it covers.
   */
  lemma ReplicaIsFold(n: nat, run: seq<Step>, r: nat)
    requires IsRun(Start(n), run) && OrderlyRun(Start(n), run) && r < n
    ensures var c := After(Start(n), run);
            && |c.replicas| == n
            && (c.replicas[r].notices == {} ==>
                  && Covered(c.replicas[r]) <= |c.agreed|
                  && c.replicas[r].store == Fold(c.agreed, Covered(c.replicas[r])))
  {
    RunKeeps(Start(n), run);
    var c := After(Start(n), run);
    assert ReplicaOk(c.agreed, c.replicas[r]);
  }

  /** Whatever a replica is given again of what it covers leaves it as it is. */
  lemma RedeliveryIsHarmless(n: nat, run: seq<Step>, r: nat, again: seq<Op>)
    requires IsRun(Start(n), run) && OrderlyRun(Start(n), run) && r < n
    requires var c := After(Start(n), run);
             && |c.replicas| == n && Covered(c.replicas[r]) <= |c.agreed| && c.replicas[r].notices == {}
             && forall j :: 0 <= j < |again| ==> again[j] in c.agreed[..Covered(c.replicas[r])]
    ensures var p := After(Start(n), run).replicas[r]; ApplyAll(p.store, again) == p.store
  {
    var c := After(Start(n), run);
    ReplicaIsFold(n, run, r);
    ReplayChangesNothing(c.agreed, Covered(c.replicas[r]), again);
  }

  /** A replica with no snapshot on its way can be given, in order, all it has not covered yet. */
  lemma {:induction false} CanCatchUp(c: Cluster, r: nat) returns (run: seq<Step>)
    requires r < |c.replicas| && c.replicas[r].notices == {} && Covered(c.replicas[r]) <= |c.agreed|
    ensures IsRun(c, run) && OrderlyRun(c, run)
    ensures var d := After(c, run);
            && d.agreed == c.agreed && |d.replicas| == |c.replicas| && Covered(d.replicas[r]) == |c.agreed|
            && forall j :: 0 <= j < |c.replicas| && j != r ==> d.replicas[j] == c.replicas[j]
    decreases |c.agreed| - Covered(c.replicas[r])
  {
    if Covered(c.replicas[r]) == |c.agreed| {
      run := [];
    } else {
      var s := Deliver(r, false);
      var rest := CanCatchUp(Do(c, s), r);
      run := [s] + rest;
      assert run[1..] == rest;
    }
  }

  /**
   A compaction a server has asked for can be done, its snapshot sent, and a
   server that is behind it brought up to it.
   */
  lemma SnapshotCanSpread(c: Cluster, r: nat, saved: Saved, q: nat)
    requires r < |c.replicas| && q < |c.replicas| && q != r && saved in c.replicas[r].compacting
    requires saved.index > c.replicas[r].snapshotIndex && saved.index > Covered(c.replicas[q])
    requires c.replicas[q].notices == {}
    ensures var run := [Compact(r, saved), Send(r), Install(q, saved), Notify(q, saved)];
            && IsRun(c, run) && OrderlyRun(c, run)
            && var d := After(c, run);
               && |d.replicas| == |c.replicas| && d.agreed == c.agreed
               && d.replicas[r] == Compacted(c.replicas[r], saved) && d.replicas[r].snapshotIndex == saved.index
               && d.replicas[q].store == saved.store && d.replicas[q].disk == Some(saved.store)
               && d.replicas[q].notices == {} && Covered(d.replicas[q]) == saved.index
  {
    var run := [Compact(r, saved), Send(r), Install(q, saved), Notify(q, saved)];
    var c1 := Do(c, run[0]);
    var c2 := Do(c1, run[1]);
    var c3 := Do(c2, run[2]);
    var c4 := Do(c3, run[3]);
    hide Do, Enabled, Orderly;
    assert Enabled(c, run[0]) && Enabled(c1, run[1]) && Enabled(c2, run[2]) && Enabled(c3, run[3]);
    assert Orderly(c, run[0]) && Orderly(c1, run[1]) && Orderly(c2, run[2]) && Orderly(c3, run[3]);
    assert run[1..][0] == run[1] && run[2..][0] == run[2] && run[3..][0] == run[3];
    assert run[1..][1..] == run[2..] && run[2..][1..] == run[3..] && run[3..][1..] == [];
    assert IsRun(c4, []) && IsRun(c3, run[3..]) && IsRun(c2, run[2..]) && IsRun(c1, run[1..]);
    assert After(c1, run[1..]) == After(c2, run[2..]) == After(c3, run[3..]) == c4;
    assert OrderlyRun(c3, run[3..]) && OrderlyRun(c2, run[2..]) && OrderlyRun(c1, run[1..]);
  }

  // ---------------------------------------------------------------- a command that overtakes a snapshot

  const FIRST := Op(Put, "k", "v", 0, 0)
  const SECOND := Op(Put, "k", "w", 0, 1)
  const AFTER_FIRST := Store(map["k" := "v"], map[0 := 0])

  /** Server 1 installs a snapshot of the first command, is given the second, and only then the snapshot. */
  const OVERTAKING: seq<Step> :=
    [Commit(FIRST), Deliver(0, true), Compact(0, Saved(1, AFTER_FIRST)), Send(0), Install(1, Saved(1, AFTER_FIRST)),
     Commit(SECOND), Deliver(1, false), Notify(1, Saved(1, AFTER_FIRST))]

  const SNAPSHOT := Saved(1, AFTER_FIRST)
  const DELIVERED := Replica(AFTER_FIRST, 1, 0, None, {SNAPSHOT}, {})
  const COMPACTED := Replica(AFTER_FIRST, 1, 1, Some(AFTER_FIRST), {}, {})
  const INSTALLED := Replica(EMPTY, 0, 1, Some(AFTER_FIRST), {}, {SNAPSHOT})
  const AHEAD := Replica(ApplyOp(EMPTY, SECOND), 2, 1, Some(AFTER_FIRST), {}, {SNAPSHOT})
  const SET_BACK := Replica(AFTER_FIRST, 2, 1, Some(AFTER_FIRST), {}, {})

  const STAGE_1 := Cluster([FIRST], [NEW_REPLICA, NEW_REPLICA], {})
  const STAGE_2 := Cluster([FIRST], [DELIVERED, NEW_REPLICA], {})
  const STAGE_3 := Cluster([FIRST], [COMPACTED, NEW_REPLICA], {})
  const STAGE_4 := Cluster([FIRST], [COMPACTED, NEW_REPLICA], {SNAPSHOT})
  const STAGE_5 := Cluster([FIRST], [COMPACTED, INSTALLED], {SNAPSHOT})
  const STAGE_6 := Cluster([FIRST, SECOND], [COMPACTED, INSTALLED], {SNAPSHOT})
  const STAGE_7 := Cluster([FIRST, SECOND], [COMPACTED, AHEAD], {SNAPSHOT})
  const STAGE_8 := Cluster([FIRST, SECOND], [COMPACTED, SET_BACK], {SNAPSHOT})

  ghost predicate Leads(c: Cluster, s: Step, d: Cluster) {
    Enabled(c, s) && Do(c, s) == d
  }

  lemma StoredFirst()
    ensures ApplyOp(EMPTY, FIRST) == AFTER_FIRST
  {
  }

  lemma FirstStages()
    ensures Leads(Start(2), OVERTAKING[0], STAGE_1) && Leads(STAGE_1, OVERTAKING[1], STAGE_2)
    ensures Leads(STAGE_2, OVERTAKING[2], STAGE_3)
  {
    StoredFirst();
    hide ApplyOp;
    assert Start(2).replicas == [NEW_REPLICA, NEW_REPLICA];
    assert NEW_REPLICA.compacting + {SNAPSHOT} == {SNAPSHOT} && DELIVERED.compacting - {SNAPSHOT} == {};
    assert Delivered(NEW_REPLICA, FIRST, true) == DELIVERED && Compacted(DELIVERED, SNAPSHOT) == COMPACTED;
    assert [NEW_REPLICA, NEW_REPLICA][0 := DELIVERED] == [DELIVERED, NEW_REPLICA];
    assert [DELIVERED, NEW_REPLICA][0 := COMPACTED] == [COMPACTED, NEW_REPLICA];
  }

  lemma MiddleStages()
    ensures Leads(STAGE_3, OVERTAKING[3], STAGE_4) && Leads(STAGE_4, OVERTAKING[4], STAGE_5)
    ensures Leads(STAGE_5, OVERTAKING[5], STAGE_6)
  {
    hide ApplyOp;
    assert STAGE_3.sent + {SNAPSHOT} == {SNAPSHOT} && NEW_REPLICA.notices + {SNAPSHOT} == {SNAPSHOT};
    assert Installed(NEW_REPLICA, SNAPSHOT) == INSTALLED;
    assert [COMPACTED, NEW_REPLICA][1 := INSTALLED] == [COMPACTED, INSTALLED];
    assert [FIRST] + [SECOND] == [FIRST, SECOND];
  }

  lemma LastStages()
    ensures Leads(STAGE_6, OVERTAKING[6], STAGE_7) && Leads(STAGE_7, OVERTAKING[7], STAGE_8)
  {
    hide ApplyOp;
    assert Delivered(INSTALLED, SECOND, false) == AHEAD;
    assert AHEAD.notices - {SNAPSHOT} == {} && Notified(AHEAD, SNAPSHOT) == SET_BACK;
    assert [COMPACTED, INSTALLED][1 := AHEAD] == [COMPACTED, AHEAD];
    assert [COMPACTED, AHEAD][1 := SET_BACK] == [COMPACTED, SET_BACK];
  }

  /** One step of a run, and the rest of it. */
  lemma RunOn(c: Cluster, run: seq<Step>, d: Cluster)
    requires run != [] && Leads(c, run[0], d) && IsRun(d, run[1..])
    ensures IsRun(c, run) && After(c, run) == After(d, run[1..])
  {
  }

  lemma OvertakingRuns()
    ensures IsRun(Start(2), OVERTAKING) && After(Start(2), OVERTAKING) == STAGE_8
  {
    var run := OVERTAKING;
    FirstStages();
    MiddleStages();
    LastStages();
    hide Leads;
    assert run[8..] == [];
    RunOn(STAGE_7, run[7..], STAGE_8);
    RunOn(STAGE_6, run[6..], STAGE_7);
    RunOn(STAGE_5, run[5..], STAGE_6);
    RunOn(STAGE_4, run[4..], STAGE_5);
    RunOn(STAGE_3, run[3..], STAGE_4);
    RunOn(STAGE_2, run[2..], STAGE_3);
    RunOn(STAGE_1, run[1..], STAGE_2);
    RunOn(Start(2), run, STAGE_1);
  }

  /** Out of order, the second command is lost although Raft has handed it out: the store is that of the first. */
  lemma OvertakenSnapshotLoses()
    ensures IsRun(Start(2), OVERTAKING)
    ensures var c := After(Start(2), OVERTAKING);
            && |c.replicas| == 2 && c.replicas[1].notices == {} && Covered(c.replicas[1]) == 2 == |c.agreed|
            && c.replicas[1].store == Fold(c.agreed, 1) != Fold(c.agreed, 2)
  {
    OvertakingRuns();
    StoredFirst();
    var log := STAGE_8.agreed;
    assert Fold(log, 0) == EMPTY && Fold(log, 1) == AFTER_FIRST;
    assert Fold(log, 2) == ApplyOp(AFTER_FIRST, SECOND) && Fold(log, 2).db["k"] == "w";
  }
}
