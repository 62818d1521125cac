/** In every orderly run of the machine, each server's store is the fold of one agreed log up to where it has come. */
module KvClusterStores {
  import opened RaftTypes
  import opened RaftPeer
  import R = RaftSystem
  import opened RaftSafety
  import opened RaftTheorems
  import opened RaftCommit
  import opened RaftAgreed
  import opened RaftRules
  import opened RaftToStore
  import opened KvStore
  import P = KvReplica
  import opened KvCluster

  /** Every server has at every moment settled a prefix of `log`. */
  ghost predicate AgreedIn(n: nat, steps: seq<R.Step>, log: seq<Entry>)
    requires R.IsRun(n, steps)
  {
    forall k, i :: 0 <= k <= |steps| && 0 <= i < n ==>
      Agree(WholeLog(n, steps, k, i), log, SettledAt(n, steps, k, i) + 1)
  }

  /** A snapshot of `log` up to its index. */
  ghost predicate Genuine(log: seq<Entry>, saved: P.Saved) {
    saved.index < |log| && saved.store == FoldTo(log, saved.index + 1)
  }

  ghost predicate ServerOk(log: seq<Entry>, p: Peer, sv: Server) {
    && sv.at <= Covered(p) < |log| && Genuine(log, P.Saved(sv.at, sv.store))
    && (sv.notices == {} ==> sv.at == Covered(p))
    && (forall saved :: saved in sv.notices ==> Genuine(log, saved) && saved.index == Covered(p))
    && Genuine(log, P.Saved(p.snapshotIndex, sv.disk))
    && (forall saved :: saved in sv.compacting ==> Genuine(log, saved) && saved.index <= p.lastApplied)
  }

  ghost predicate StoresOk(w: World, log: seq<Entry>)
    requires Ran(w)
  {
    && (forall i :: 0 <= i < w.n ==> ServerOk(log, PeerNow(w, i), w.servers[i]))
    && (forall parcel :: parcel in w.parcels ==> Genuine(log, P.Saved(parcel.args.lastIndex, parcel.store)))
  }

  /** `log` is agreed on in the run `steps`, of which `w` has seen the first part. */
  ghost predicate Part(w: World, steps: seq<R.Step>, log: seq<Entry>) {
    GuardedWorld(w) && R.IsRun(w.n, steps) && w.steps <= steps && AgreedIn(w.n, steps, log)
  }

  // ---------------------------------------------------------------- one server

  lemma CompactIndex(p: Peer, index: nat)
    ensures var q := RaftPeer.Compact(p, index);
            && q.lastApplied == p.lastApplied
            && (q.snapshotIndex == p.snapshotIndex || (q.snapshotIndex == index && index > p.snapshotIndex))
  {
  }

  lemma SnapshotIndex(p: Peer, args: SnapshotArgs)
    ensures var q := HandleSnapshot(p, args).0;
            && q.lastApplied == p.lastApplied
            && (q.snapshotIndex == p.snapshotIndex
                || (q.snapshotIndex == args.lastIndex && args.lastIndex > p.snapshotIndex
                    && args.lastIndex > p.commitIndex))
  {
  }

  lemma CompactedOk(log: seq<Entry>, p: Peer, sv: Server, saved: P.Saved)
    requires ServerOk(log, p, sv) && saved in sv.compacting
    ensures ServerOk(log, RaftPeer.Compact(p, saved.index), Compacted(p, sv, saved))
  {
    CompactIndex(p, saved.index);
    hide RaftPeer.Compact, Genuine;
  }

  lemma InstalledOk(log: seq<Entry>, p: Peer, sv: Server, args: SnapshotArgs, store: Store)
    requires ServerOk(log, p, sv) && Genuine(log, P.Saved(args.lastIndex, store)) && sv.notices == {}
    requires p.lastApplied <= p.commitIndex
    ensures ServerOk(log, HandleSnapshot(p, args).0, Installed(p, sv, args, store))
  {
    SnapshotIndex(p, args);
    hide HandleSnapshot, FoldTo;
  }

  lemma NotifiedOk(log: seq<Entry>, p: Peer, sv: Server, saved: P.Saved)
    requires ServerOk(log, p, sv) && saved in sv.notices
    ensures ServerOk(log, p, Notified(sv, saved))
  {
    hide Genuine;
  }

  lemma RestartedOk(log: seq<Entry>, p: Peer, q: Peer, sv: Server)
    requires ServerOk(log, p, sv) && q.lastApplied == 0 && q.snapshotIndex == p.snapshotIndex
    ensures ServerOk(log, q, Restarted(p, sv))
  {
    hide Genuine;
  }

  /** The store after some of the messages. */
  lemma HandedSome(log: seq<Entry>, first: nat, msgs: seq<ApplyMsg>, k: nat)
    requires HandsOut(msgs, first, log) && first <= |log| && k <= |msgs|
    ensures first + k <= |log| && HandAll(FoldTo(log, first), msgs[..k]) == FoldTo(log, first + k)
  {
    hide FoldTo, HandAll;
    HandsAlong(log, first, msgs[..k]);
  }

  lemma AskedGenuine(log: seq<Entry>, first: nat, msgs: seq<ApplyMsg>, asks: set<nat>, saved: P.Saved)
    requires HandsOut(msgs, first, log) && first <= |log| && saved in Asked(FoldTo(log, first), msgs, asks)
    ensures Genuine(log, saved) && first <= saved.index < first + |msgs|
  {
    hide FoldTo, HandAll;
    var k :| 0 <= k < |msgs| && saved == P.Saved(msgs[k].index, HandAll(FoldTo(log, first), msgs[..k + 1]));
    HandedSome(log, first, msgs, k + 1);
  }

  lemma AppliedOk(log: seq<Entry>, p: Peer, sv: Server, asks: set<nat>)
    requires ServerOk(log, p, sv) && sv.notices == {} && RaftPeer.Apply(p).Some?
    requires HandsOut(MsgsOf(p), Covered(p) + 1, log)
    ensures ServerOk(log, RaftPeer.Apply(p).value.0, Applied(p, sv, asks))
  {
    hide RaftPeer.Apply, MsgsOf, HandAll, FoldTo, HandsOut;
    var msgs, first, q := MsgsOf(p), Covered(p) + 1, RaftPeer.Apply(p).value.0;
    AppliedUpTo(p);
    HandedSome(log, first, msgs, |msgs|);
    assert msgs[..|msgs|] == msgs;
    AppliedAsked(log, p, sv, asks);
  }

  lemma AppliedAsked(log: seq<Entry>, p: Peer, sv: Server, asks: set<nat>)
    requires ServerOk(log, p, sv) && sv.notices == {} && RaftPeer.Apply(p).Some?
    requires HandsOut(MsgsOf(p), Covered(p) + 1, log)
    ensures forall saved :: saved in Applied(p, sv, asks).compacting ==>
              Genuine(log, saved) && saved.index <= RaftPeer.Apply(p).value.0.lastApplied
  {
    hide RaftPeer.Apply, MsgsOf, HandAll, FoldTo, HandsOut;
    var msgs, first, q := MsgsOf(p), Covered(p) + 1, RaftPeer.Apply(p).value.0;
    AppliedUpTo(p);
    forall saved | saved in Applied(p, sv, asks).compacting
      ensures Genuine(log, saved) && saved.index <= q.lastApplied
    {
      if saved !in sv.compacting {
        AskedGenuine(log, first, msgs, asks, saved);
        assert msgs[saved.index - first].index <= q.lastApplied;
      }
    }
  }

  // ---------------------------------------------------------------- the whole machine

  /** A moment of the run so far is a moment of the whole run. */
  lemma SameMoment(n: nat, now: seq<R.Step>, steps: seq<R.Step>, k: nat, i: nat)
    requires R.IsRun(n, steps) && R.IsRun(n, now) && now <= steps && k <= |now| && i < n
    ensures PeerAt(n, now, k, i) == PeerAt(n, steps, k, i) && WholeLog(n, now, k, i) == WholeLog(n, steps, k, i)
  {
    hide R.IsRun;
    assert now[..k] == steps[..k];
  }

  /** At a moment of the run so far, a server has settled a prefix of the agreed log. */
  lemma AgreedNow(w: World, steps: seq<R.Step>, log: seq<Entry>, k: nat, i: nat)
    requires Part(w, steps, log) && k <= |w.steps| && i < w.n
    ensures Agree(WholeLog(w.n, w.steps, k, i), log, SettledAt(w.n, w.steps, k, i) + 1)
  {
    hide R.IsRun, GuardedRun, Modest, Agree, WholeLog, PeerAt;
    SameMoment(w.n, w.steps, steps, k, i);
  }

  lemma CoveredWithin(w: World, steps: seq<R.Step>, log: seq<Entry>, i: nat)
    requires Part(w, steps, log) && i < w.n
    ensures var p := PeerNow(w, i); p.lastApplied <= p.commitIndex && Covered(p) <= Settled(p) < |log|
  {
    AgreedNow(w, steps, log, |w.steps|, i);
    hide R.IsRun, GuardedRun, Modest;
    PeerFacts(w.n, w.steps, |w.steps|, i);
  }

  lemma HandsOutNow(w: World, steps: seq<R.Step>, log: seq<Entry>, i: nat)
    requires Part(w, steps, log) && i < w.n
    ensures var p := PeerNow(w, i); RaftPeer.Apply(p).Some? && HandsOut(MsgsOf(p), Covered(p) + 1, log)
  {
    hide R.IsRun, GuardedRun, Modest, Agree, HandsOut, RaftPeer.Apply, AgreedIn, WholeLog, PeerAt;
    AgreedNow(w, steps, log, |w.steps|, i);
    AppliesAgreedLog(w.n, w.steps, i, log);
  }

  lemma SameIndexesOk(log: seq<Entry>, p: Peer, q: Peer, sv: Server)
    requires ServerOk(log, p, sv) && SameIndexes(p, q)
    ensures ServerOk(log, q, sv)
  {
    hide Genuine;
  }

  /** An event keeps what holds of server `i`. */
  lemma ServerKeeps(w: World, e: Event, steps: seq<R.Step>, log: seq<Entry>, i: nat, q: Peer)
    requires Part(w, steps, log) && StoresOk(w, log) && Enabled(w, e) && Orderly(w, e) && i < w.n
    requires if StepIn(e).Some? then Indexed(PeerNow(w, i), q, StepIn(e).value, i) else q == PeerNow(w, i)
    ensures i < |ServersAfter(w, e)| && ServerOk(log, q, ServersAfter(w, e)[i])
  {
    hide R.IsRun, GuardedRun, Modest, AgreedIn, ServerOk, RaftPeer.Apply, RaftPeer.Compact, HandleSnapshot, MsgsOf,
      HandsOut, Applied, Compacted, Installed, Notified, Restarted, Genuine, CheckConsistency;
    var p, sv := PeerNow(w, i), w.servers[i];
    assert ServerOk(log, p, sv);
    match e
    case Raft(step) =>
      if step == R.Crash(i) {
        RestartedOk(log, p, q, sv);
      } else {
        SameIndexesOk(log, p, q, sv);
      }
    case Apply(j, asks) =>
      if j == i {
        HandsOutNow(w, steps, log, i);
        AppliedOk(log, p, sv, asks);
      } else {
        SameIndexesOk(log, p, q, sv);
      }
    case Compact(j, saved) =>
      if j == i {
        CompactedOk(log, p, sv, saved);
      } else {
        SameIndexesOk(log, p, q, sv);
      }
    case Install(m, store) =>
      if m.to == i {
        CoveredWithin(w, steps, log, i);
        assert Genuine(log, P.Saved(m.snapshot.lastIndex, store)) by {
          assert Parcel(m.snapshot, store) in w.parcels;
        }
        InstalledOk(log, p, sv, m.snapshot, store);
      } else {
        SameIndexesOk(log, p, q, sv);
      }
    case Notify(j, saved) =>
      if j == i {
        NotifiedOk(log, p, sv, saved);
      }
    case _ =>
  }

  /** A leader's snapshot request carries its snapshot index. */
  lemma ProbeIndex(p: Peer, to: nat)
    requires |p.logs| > 0 && to < |p.nextIndex| && p.nextIndex[to] >= 1
    ensures var probe := CheckConsistency(p, to); probe.SendSnapshot? ==> probe.snapshot.lastIndex == p.snapshotIndex
  {
  }

  lemma ParcelsKeep(w: World, e: Event, log: seq<Entry>, parcel: Parcel)
    requires Ran(w) && StoresOk(w, log) && parcel in ParcelsAfter(w, e)
    ensures Genuine(log, P.Saved(parcel.args.lastIndex, parcel.store))
  {
    hide R.IsRun, CheckConsistency, Genuine;
    if parcel !in w.parcels {
      var p, sv := PeerNow(w, e.step.i), w.servers[e.step.i];
      ProbeIndex(p, e.step.to);
      assert ServerOk(log, p, sv);
    }
  }

  lemma EventStores(w: World, e: Event, steps: seq<R.Step>, log: seq<Entry>)
    requires Part(w, steps, log) && StoresOk(w, log) && Enabled(w, e) && Orderly(w, e) && Do(w, e).steps <= steps
    ensures Part(Do(w, e), steps, log) && StoresOk(Do(w, e), log)
  {
    hide R.IsRun, GuardedRun, Modest, AgreedIn, ServerOk, Genuine, Indexed, Enabled, Orderly, ServersAfter,
      ParcelsAfter, Peak;
    EventGuarded(w, e);
    var w' := Do(w, e);
    forall i | 0 <= i < w'.n ensures ServerOk(log, PeerNow(w', i), w'.servers[i]) {
      StepSeen(w, e, i);
      ServerKeeps(w, e, steps, log, i, PeerNow(w', i));
    }
    forall parcel | parcel in w'.parcels ensures Genuine(log, P.Saved(parcel.args.lastIndex, parcel.store)) {
      ParcelsKeep(w, e, log, parcel);
    }
  }
}
