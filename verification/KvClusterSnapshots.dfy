/** In the machine of `KvCluster`, servers can compact what they apply, and leaders can hand their snapshots over. */
module KvClusterSnapshots {
  import opened RaftTypes
  import opened RaftPeer
  import R = RaftSystem
  import opened RaftCatchUp
  import opened RaftRules
  import opened RaftToStore
  import opened KvStore
  import P = KvReplica
  import opened KvCluster

  lemma PeersNow(w: World)
    requires Ran(w)
    ensures var s := R.After(w.n, w.steps);
            R.Shaped(s) && |s.peers| == w.n && forall i :: 0 <= i < w.n ==> PeerNow(w, i) == s.peers[i]
  {
    hide R.IsRun;
    RunShaped(w.n, w.steps);
    assert w.steps[..|w.steps|] == w.steps;
  }

  /** A step that Raft can take from here. */
  lemma CanTake(w: World, step: R.Step)
    requires Ran(w) && R.Shaped(R.After(w.n, w.steps)) && R.Enabled(R.After(w.n, w.steps), step)
    ensures R.IsRun(w.n, w.steps + [step])
    ensures R.After(w.n, w.steps + [step]) == R.Do(R.After(w.n, w.steps), step)
  {
    hide R.IsRun, R.Do, R.Enabled, R.Shaped;
    OneMore(w.n, w.steps, step);
  }

  // ---------------------------------------------------------------- compaction

  lemma ApplyFacts(p: Peer)
    requires RaftPeer.Apply(p).Some? && p.commitIndex > Covered(p)
    ensures var (q, msgs) := RaftPeer.Apply(p).value;
            && q == p.(lastApplied := p.commitIndex) && MsgsOf(p) == msgs && |msgs| == p.commitIndex - Covered(p)
            && msgs[|msgs| - 1].index == p.commitIndex && p.commitIndex <= p.Last()
  {
  }

  lemma AskedLast(p: Peer, sv: Server)
    requires RaftPeer.Apply(p).Some? && p.commitIndex > Covered(p)
    ensures P.Saved(p.commitIndex, HandAll(sv.store, MsgsOf(p))) in Applied(p, sv, {p.commitIndex}).compacting
  {
    hide RaftPeer.Apply, HandAll, MsgsOf;
    ApplyFacts(p);
    var msgs := MsgsOf(p);
    var k := |msgs| - 1;
    assert msgs[..k + 1] == msgs;
    assert P.Saved(msgs[k].index, HandAll(sv.store, msgs[..k + 1])) in Asked(sv.store, msgs, {p.commitIndex});
  }

  lemma Applying(w: World, i: nat)
    requires Ran(w) && i < w.n && RaftPeer.Apply(PeerNow(w, i)).Some?
    ensures Enabled(w, Apply(i, {PeerNow(w, i).commitIndex}))
    ensures var p := PeerNow(w, i);
            var v := Do(w, Apply(i, {p.commitIndex}));
            && Ran(v) && v.n == w.n && PeerNow(v, i) == RaftPeer.Apply(p).value.0
            && v.servers[i] == Applied(p, w.servers[i], {p.commitIndex})
  {
    hide R.IsRun, Peak, RaftPeer.Apply, Applied;
    PeersNow(w);
    CanTake(w, R.ApplyLog(i));
    var e := Apply(i, {PeerNow(w, i).commitIndex});
    EventRan(w, e);
    PeersNow(Do(w, e));
  }

  lemma Compacting(w: World, i: nat, saved: P.Saved)
    requires Ran(w) && i < w.n && saved in w.servers[i].compacting
    ensures Enabled(w, Compact(i, saved))
    ensures var v := Do(w, Compact(i, saved));
            && Ran(v) && v.n == w.n && PeerNow(v, i) == RaftPeer.Compact(PeerNow(w, i), saved.index)
            && v.servers[i] == Compacted(PeerNow(w, i), w.servers[i], saved)
  {
    hide R.IsRun, Peak, RaftPeer.Compact, Compacted;
    PeersNow(w);
    CanTake(w, R.CompactLog(i, saved.index));
    EventRan(w, Compact(i, saved));
    PeersNow(Do(w, Compact(i, saved)));
  }

  /**
   Whenever a server has committed entries to apply, it can apply them and compact
   its log up to the last of them: its disk then holds the store at that entry.
   */
  lemma CanCompact(w: World, i: nat)
    requires Ran(w) && i < w.n
    requires var p := PeerNow(w, i); RaftPeer.Apply(p).Some? && p.commitIndex > Covered(p)
    ensures var p, sv := PeerNow(w, i), w.servers[i];
            var saved := P.Saved(p.commitIndex, HandAll(sv.store, MsgsOf(p)));
            var apply, compact := Apply(i, {p.commitIndex}), Compact(i, saved);
            && Enabled(w, apply) && Ran(Do(w, apply)) && Enabled(Do(w, apply), compact)
            && var v := Do(Do(w, apply), compact);
               && Ran(v) && v.n == w.n && |v.servers| == w.n
               && v.servers[i].disk == v.servers[i].store == HandAll(sv.store, MsgsOf(p))
               && PeerNow(v, i).snapshotIndex == p.commitIndex == PeerNow(v, i).lastApplied
               && |PeerNow(v, i).logs| == p.Last() - p.commitIndex + 1
  {
    hide R.IsRun, Peak, RaftPeer.Apply, HandAll, MsgsOf, Enabled, Do;
    var p, sv := PeerNow(w, i), w.servers[i];
    var saved := P.Saved(p.commitIndex, HandAll(sv.store, MsgsOf(p)));
    ApplyFacts(p);
    Applying(w, i);
    AskedLast(p, sv);
    Compacting(Do(w, Apply(i, {p.commitIndex})), i, saved);
    CompactedSize(RaftPeer.Apply(p).value.0, p.commitIndex);
  }

  lemma CompactedSize(p: Peer, index: nat)
    requires p.snapshotIndex < index <= p.Last()
    ensures var q := RaftPeer.Compact(p, index);
            q.snapshotIndex == index && |q.logs| == p.Last() - index + 1 && q.lastApplied == p.lastApplied
  {
  }

  // ---------------------------------------------------------------- handing a snapshot over

  lemma Sending(w: World, l: nat, to: nat, args: SnapshotArgs)
    requires Ran(w) && l < w.n && to < w.n && l != to && CheckConsistency(PeerNow(w, l), to) == SendSnapshot(args)
    ensures Enabled(w, Raft(R.Check(l, to)))
    ensures var v := Do(w, Raft(R.Check(l, to)));
            && Ran(v) && v.n == w.n && v.servers == w.servers && Parcel(args, w.servers[l].disk) in v.parcels
            && R.SnapshotMsg(to, args) in R.After(v.n, v.steps).net
            && (forall i :: 0 <= i < w.n ==> PeerNow(v, i) == PeerNow(w, i))
  {
    hide R.IsRun, Peak, CheckConsistency;
    PeersNow(w);
    CanTake(w, R.Check(l, to));
    EventRan(w, Raft(R.Check(l, to)));
    PeersNow(Do(w, Raft(R.Check(l, to))));
  }

  lemma Receiving(w: World, to: nat, args: SnapshotArgs, store: Store)
    requires Ran(w) && to < w.n && Parcel(args, store) in w.parcels
    requires R.SnapshotMsg(to, args) in R.After(w.n, w.steps).net
    ensures Enabled(w, Install(R.SnapshotMsg(to, args), store))
    ensures var v := Do(w, Install(R.SnapshotMsg(to, args), store));
            && Ran(v) && v.n == w.n && PeerNow(v, to) == HandleSnapshot(PeerNow(w, to), args).0
            && v.servers == w.servers[to := Installed(PeerNow(w, to), w.servers[to], args, store)]
  {
    hide R.IsRun, Peak, HandleSnapshot, Installed;
    PeersNow(w);
    var m := R.SnapshotMsg(to, args);
    CanTake(w, R.DeliverSnapshot(m));
    EventRan(w, Install(m, store));
    PeersNow(Do(w, Install(m, store)));
  }

  lemma Notifying(w: World, to: nat, saved: P.Saved)
    requires Ran(w) && to < w.n && saved in w.servers[to].notices
    ensures Enabled(w, Notify(to, saved))
    ensures var v := Do(w, Notify(to, saved));
            Ran(v) && v.n == w.n && PeerNow(v, to) == PeerNow(w, to) && v.servers[to] == Notified(w.servers[to], saved)
  {
    hide R.IsRun, Peak;
    EventRan(w, Notify(to, saved));
  }

  /** The snapshot is ahead of everything the follower has, or knows to be committed. */
  predicate Ahead(args: SnapshotArgs, f: Peer) {
    args.term >= f.term && args.lastIndex > f.snapshotIndex && args.lastIndex > f.commitIndex
  }

  lemma InstalledAhead(f: Peer, sv: Server, args: SnapshotArgs, store: Store)
    requires Ahead(args, f)
    ensures HandleSnapshot(f, args).0.snapshotIndex == args.lastIndex
    ensures Installed(f, sv, args, store)
            == sv.(disk := store, notices := sv.notices + {P.Saved(args.lastIndex, store)})
  {
  }

  /**
   A leader that a follower has fallen behind can hand its snapshot over: the
   follower's store and disk are then what the leader had on disk.
   */
  lemma CanHandOver(w: World, l: nat, to: nat, args: SnapshotArgs)
    requires Ran(w) && l < w.n && to < w.n && l != to
    requires CheckConsistency(PeerNow(w, l), to) == SendSnapshot(args) && Ahead(args, PeerNow(w, to))
    ensures var m, store := R.SnapshotMsg(to, args), w.servers[l].disk;
            var check, install, notify :=
                Raft(R.Check(l, to)), Install(m, store), Notify(to, P.Saved(args.lastIndex, store));
            && Enabled(w, check) && Ran(Do(w, check)) && Enabled(Do(w, check), install)
            && Ran(Do(Do(w, check), install)) && Enabled(Do(Do(w, check), install), notify)
            && var v := Do(Do(Do(w, check), install), notify);
               && Ran(v) && v.n == w.n && |v.servers| == w.n && PeerNow(v, to).snapshotIndex == args.lastIndex
               && v.servers[to].store == v.servers[to].disk == store && v.servers[to].at == args.lastIndex
  {
    hide R.IsRun, Peak, CheckConsistency, HandleSnapshot, Installed, Enabled, Do, R.After;
    var m, store := R.SnapshotMsg(to, args), w.servers[l].disk;
    Sending(w, l, to, args);
    var w1 := Do(w, Raft(R.Check(l, to)));
    Receiving(w1, to, args, store);
    InstalledAhead(PeerNow(w, to), w.servers[to], args, store);
    var w2 := Do(w1, Install(m, store));
    Notifying(w2, to, P.Saved(args.lastIndex, store));
  }
}
