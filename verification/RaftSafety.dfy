/**
 Commit safety: what the match indexes, commit indexes and snapshots of the
 peers mean. It holds of every run in which a leader never probes beyond its
 own log and peers compact only what they have applied.
 */
module RaftSafety {
  import opened RaftTypes
  import opened RaftCore
  import opened RaftPeer
  import opened RaftSystem
  import opened RaftInvariant
  import opened RaftSteps

  // ---------------------------------------------------------------- the guard

  /** A probe starts within the leader's log, and compaction stays behind the applied index. */
  predicate Guarded(s: System, step: Step)
    requires Shaped(s) && Enabled(s, step)
  {
    match step
    case Check(i, to) =>
      CheckConsistency(s.peers[i], to).SendAppend? ==> s.peers[i].nextIndex[to] <= s.peers[i].Last() + 1
    case CompactLog(i, index) => index <= Max(s.peers[i].lastApplied, s.peers[i].snapshotIndex)
    case _ => true
  }

  /** Every step of the run meets the guard. */
  ghost predicate GuardedRun(n: nat, steps: seq<Step>)
    requires IsRun(n, steps)
    decreases |steps|
  {
    steps != [] ==>
      GuardedRun(n, steps[..|steps| - 1]) && Guarded(After(n, steps[..|steps| - 1]), steps[|steps| - 1])
  }

  // ---------------------------------------------------------------- the invariant

  /** A chosen entry of term `t` at `n` covers the first `k + 1` entries of `log`. */
  ghost predicate CoveredBy(c: Core, log: seq<Entry>, k: nat, term: nat, t: nat, n: nat) {
    k <= n && t <= term && Chosen(c, t, n) && Agree(log, c.termLog[t], k + 1)
  }

  ghost predicate Committed(c: Core, log: seq<Entry>, k: nat, term: nat) {
    k < |log| && (k == 0 || exists t: nat, n: nat :: CoveredBy(c, log, k, term, t, n))
  }

  /** Server `j` has acknowledged the leader's log up to `m`, or the log is committed that far anyway. */
  ghost predicate Backed(c: Core, log: seq<Entry>, term: nat, j: nat, m: nat) {
    m < |log| && (AckedTo(c, term, j, m) || Committed(c, log, m, term))
  }

  /** A leader's match indexes are backed; a snapshot reply of an older term may set one without an acknowledgement. */
  ghost predicate MatchOk(c: Core, log: seq<Entry>, p: Peer) {
    forall j :: 0 <= j < |p.matchIndex| && p.matchIndex[j] > 0 ==> Backed(c, log, p.term, j, p.matchIndex[j])
  }

  /** How far a peer's log is known to be committed. */
  function Settled(p: Peer): nat { Max(p.commitIndex, p.snapshotIndex) }

  /** `log` is the whole log behind the peer. */
  ghost predicate PeerSafe(c: Core, log: seq<Entry>, p: Peer) {
    && p.lastApplied <= p.commitIndex
    && Committed(c, log, Settled(p), p.term)
    && (p.role == Leader ==> MatchOk(c, log, p))
  }

  ghost predicate SentBy(c: Core, args: AppendArgs) {
    args.term in c.leaderOf && c.leaderOf[args.term] == args.leader && Piece(c.termLog, args)
  }

  ghost predicate SnapshotSafe(c: Core, args: SnapshotArgs) {
    args.term in c.termLog && Committed(c, c.termLog[args.term], args.lastIndex, args.term)
  }

  ghost predicate MessageSafe(c: Core, m: Message) {
    match m
    case AppendMsg(to, args) =>
      && to != args.leader && SentBy(c, args)
      && args.leaderCommit <= args.prevIndex + |args.entries|
      && Committed(c, c.termLog[args.term], args.leaderCommit, args.term)
    case AppendReplyMsg(from, args, reply) =>
      && SentBy(c, args) && from != args.leader
      && (reply.success ==> reply.term == args.term && Ack(args.term, from, args.prevIndex + |args.entries|) in c.acks)
    case SnapshotMsg(_, args) => SnapshotSafe(c, args)
    case SnapshotReplyMsg(_, args, term) => args.term <= term && SnapshotSafe(c, args)
  }

  /** While the sender still leads, its snapshot has not passed both its commit index and where the probe started. */
  ghost predicate ProbeBound(peers: seq<Peer>, m: Message) {
    m.AppendMsg? || m.AppendReplyMsg? ==>
      var l := m.append.leader;
      l < |peers| && peers[l].role == Leader && peers[l].term == m.append.term ==>
        peers[l].snapshotIndex <= Max(peers[l].commitIndex, m.append.prevIndex)
  }

  ghost predicate AppliedBy(c: Core, a: Applied, t: nat, n: nat) {
    1 <= a.index <= n && Chosen(c, t, n) && c.termLog[t][a.index].command == a.command
  }

  ghost predicate AppliedSafe(c: Core, a: Applied) {
    exists t: nat, n: nat :: AppliedBy(c, a, t, n)
  }

  ghost predicate SafeInv(s: System, c: Core) {
    && |s.peers| == |c.nodes|
    && (forall i {:trigger s.peers[i]} :: 0 <= i < |s.peers| ==> PeerSafe(c, c.nodes[i].log, s.peers[i]))
    && (forall m {:trigger m in s.net} :: m in s.net ==> MessageSafe(c, m) && ProbeBound(s.peers, m))
    && (forall a {:trigger a in s.applied} :: a in s.applied ==> AppliedSafe(c, a))
  }

  // ---------------------------------------------------------------- growth

  lemma ChosenGrows(c: Core, d: Core, t: nat, n: nat)
    requires Extends(c, d) && Chosen(c, t, n)
    ensures Chosen(d, t, n)
  {
    var q :| AckQuorum(c, t, n, q);
    forall v | v in q ensures AckedTo(d, t, v, n) {
      assert AckedTo(c, t, v, n);
    }
    assert AckQuorum(d, t, n, q);
    assert Agree(c.termLog[t], d.termLog[t], |c.termLog[t]|);
  }

  lemma CommittedGrows(c: Core, d: Core, log: seq<Entry>, k: nat, term: nat, log': seq<Entry>, term': nat)
    requires Extends(c, d) && Committed(c, log, k, term) && term <= term' && Agree(log, log', k + 1)
    ensures Committed(d, log', k, term')
  {
    if k > 0 {
      var t: nat, n: nat :| CoveredBy(c, log, k, term, t, n);
      ChosenGrows(c, d, t, n);
      assert Agree(c.termLog[t], d.termLog[t], |c.termLog[t]|);
      assert CoveredBy(d, log', k, term', t, n);
    }
  }

  /** A shorter prefix of a committed one is committed. */
  lemma CommittedShrinks(c: Core, log: seq<Entry>, k: nat, m: nat, term: nat)
    requires Committed(c, log, k, term) && m <= k
    ensures Committed(c, log, m, term)
  {
    if m > 0 {
      var t: nat, n: nat :| CoveredBy(c, log, k, term, t, n);
      assert CoveredBy(c, log, m, term, t, n);
    }
  }

  lemma TermLogCommittedGrows(c: Core, d: Core, t: nat, k: nat)
    requires Extends(c, d) && t in c.termLog && Committed(c, c.termLog[t], k, t)
    ensures t in d.termLog && Committed(d, d.termLog[t], k, t)
  {
    assert Agree(c.termLog[t], d.termLog[t], |c.termLog[t]|);
    CommittedGrows(c, d, c.termLog[t], k, t, d.termLog[t], t);
  }

  lemma MessageSafeGrows(c: Core, d: Core, m: Message)
    requires Extends(c, d) && MessageSafe(c, m)
    ensures MessageSafe(d, m)
  {
    hide Committed, Piece;
    match m
    case AppendMsg(_, args) =>
      PieceGrows(c, d, args);
      PieceTerm(c, args);
      TermLogCommittedGrows(c, d, args.term, args.leaderCommit);
    case AppendReplyMsg(_, args, _) =>
      PieceGrows(c, d, args);
    case SnapshotMsg(_, args) =>
      TermLogCommittedGrows(c, d, args.term, args.lastIndex);
    case SnapshotReplyMsg(_, args, _) =>
      TermLogCommittedGrows(c, d, args.term, args.lastIndex);
  }

  lemma PieceTerm(c: Core, args: AppendArgs)
    requires Piece(c.termLog, args)
    ensures args.term in c.termLog && args.prevIndex + |args.entries| < |c.termLog[args.term]|
  {
  }

  lemma AppliedSafeGrows(c: Core, d: Core, a: Applied)
    requires Extends(c, d) && AppliedSafe(c, a)
    ensures AppliedSafe(d, a)
  {
    var t: nat, n: nat :| AppliedBy(c, a, t, n);
    ChosenGrows(c, d, t, n);
    assert Agree(c.termLog[t], d.termLog[t], |c.termLog[t]|);
    assert AppliedBy(d, a, t, n);
  }

  lemma PeerSafeGrows(c: Core, d: Core, log: seq<Entry>, p: Peer)
    requires Extends(c, d) && PeerSafe(c, log, p)
    ensures PeerSafe(d, log, p)
  {
    hide Extends, MatchOk, CoveredBy;
    CommittedGrows(c, d, log, Settled(p), p.term, log, p.term);
    if p.role == Leader {
      MatchGrows(c, d, log, log, p);
    }
  }

  /** A leader's match indexes stay backed while histories and its own log grow. */
  lemma MatchGrows(c: Core, d: Core, log: seq<Entry>, log': seq<Entry>, p: Peer)
    requires Extends(c, d) && MatchOk(c, log, p) && Agree(log, log', |log|)
    ensures MatchOk(d, log', p)
  {
    hide Extends, Committed, AckedTo;
    forall j | 0 <= j < |p.matchIndex| && p.matchIndex[j] > 0 ensures Backed(d, log', p.term, j, p.matchIndex[j]) {
      assert Backed(c, log, p.term, j, p.matchIndex[j]);
      BackedGrows(c, d, log, log', p.term, j, p.matchIndex[j]);
    }
  }

  lemma BackedGrows(c: Core, d: Core, log: seq<Entry>, log': seq<Entry>, term: nat, j: nat, m: nat)
    requires Extends(c, d) && Backed(c, log, term, j, m) && Agree(log, log', |log|)
    ensures Backed(d, log', term, j, m)
  {
    if Committed(c, log, m, term) {
      CommittedGrows(c, d, log, m, term, log', term);
    }
  }

  /** What a step of server `i` may do to the bound: lead on, or not lead, or lead a term nothing was sent in. */
  ghost predicate KeepsBound(c: Core, p: Peer, q: Peer, i: nat) {
    q.role == Leader ==>
      || (p.role == Leader && p.term == q.term && p.commitIndex <= q.commitIndex
          && q.snapshotIndex <= Max(p.snapshotIndex, q.commitIndex))
      || !(q.term in c.leaderOf && c.leaderOf[q.term] == i)
  }

  lemma BoundStays(c: Core, peers: seq<Peer>, peers': seq<Peer>, i: nat, m: Message)
    requires |peers'| == |peers| && i < |peers| && forall j :: 0 <= j < |peers| && j != i ==> peers'[j] == peers[j]
    requires MessageSafe(c, m) && ProbeBound(peers, m) && KeepsBound(c, peers[i], peers'[i], i)
    ensures ProbeBound(peers', m)
  {
    hide Piece, Committed;
  }

  lemma SafeFrame(s: System, c: Core, t: System, d: Core, i: nat)
    requires SafeInv(s, c) && Evolves(c, d, i)
    requires |t.peers| == |s.peers| && i < |t.peers|
    requires forall j :: 0 <= j < |s.peers| && j != i ==> t.peers[j] == s.peers[j]
    requires PeerSafe(d, d.nodes[i].log, t.peers[i]) && KeepsBound(c, s.peers[i], t.peers[i], i)
    requires forall m :: m in t.net ==> m in s.net || (MessageSafe(d, m) && ProbeBound(t.peers, m))
    requires forall a :: a in t.applied ==> a in s.applied || AppliedSafe(d, a)
    ensures SafeInv(t, d)
  {
    hide PeerSafe, MessageSafe, ProbeBound, AppliedSafe, KeepsBound, Extends;
    SameSize(c, d, i);
    forall j | 0 <= j < |t.peers| ensures PeerSafe(d, d.nodes[j].log, t.peers[j]) {
      if j != i {
        PeerSafeGrows(c, d, c.nodes[j].log, s.peers[j]);
      }
    }
    forall m | m in t.net ensures MessageSafe(d, m) && ProbeBound(t.peers, m) {
      if m in s.net {
        MessageSafeGrows(c, d, m);
        BoundStays(c, s.peers, t.peers, i, m);
      }
    }
    forall a | a in t.applied ensures AppliedSafe(d, a) {
      if a in s.applied {
        AppliedSafeGrows(c, d, a);
      }
    }
  }

  lemma SameSize(c: Core, d: Core, i: nat)
    requires Evolves(c, d, i)
    ensures |c.nodes| == |d.nodes|
  {
  }

  // ---------------------------------------------------------------- safety of committed prefixes

  /** Any two committed prefixes agree. */
  lemma CommittedAgree(c: Core, a: seq<Entry>, ka: nat, ta: nat, b: seq<Entry>, kb: nat, tb: nat)
    requires CoreInv(c) && Committed(c, a, ka, ta) && Committed(c, b, kb, tb)
    requires GoodLog(a) && GoodLog(b)
    ensures Agree(a, b, Min(ka, kb) + 1)
  {
    if ka > 0 && kb > 0 {
      var t: nat, n: nat :| CoveredBy(c, a, ka, ta, t, n);
      var u: nat, m: nat :| CoveredBy(c, b, kb, tb, u, m);
      if t < u {
        LeaderCompleteness(c, t, n, u);
      } else if u < t {
        LeaderCompleteness(c, u, m, t);
      }
    }
  }

  /** The leader of a term holds whatever any server of that term or before has committed. */
  lemma LeaderHasCommitted(c: Core, log: seq<Entry>, k: nat, term: nat, u: nat)
    requires CoreInv(c) && Committed(c, log, k, term) && GoodLog(log)
    requires term <= u && u in c.termLog
    ensures Agree(log, c.termLog[u], k + 1)
  {
    assert GoodTermLog(c, u);
    if k > 0 {
      var t: nat, n: nat :| CoveredBy(c, log, k, term, t, n);
      if t < u {
        LeaderCompleteness(c, t, n, u);
      }
    }
  }

  /** Taking over a leader's log never touches the committed prefix. */
  lemma CommittedSurvives(c: Core, log: seq<Entry>, k: nat, term: nat, u: nat, m: nat)
    requires CoreInv(c) && Committed(c, log, k, term) && GoodLog(log)
    requires term <= u && u in c.termLog && m < |c.termLog[u]|
    ensures Agree(log, Taken(log, c.termLog[u], m), k + 1)
  {
    LeaderHasCommitted(c, log, k, term, u);
  }
}
