/** Every guarded step keeps `SafeInv`. */
module RaftSafeSteps {
  import opened RaftTypes
  import opened RaftCore
  import opened RaftPeer
  import opened RaftCompaction
  import opened RaftSystem
  import opened RaftInvariant
  import opened RaftSteps
  import opened RaftSafety

  // ---------------------------------------------------------------- steps that leave the log alone

  /** A peer whose log stays as it is, and which does not become leader. */
  lemma SameLog(c: Core, d: Core, log: seq<Entry>, p: Peer, q: Peer)
    requires PeerSafe(c, log, p) && Extends(c, d)
    requires q.snapshotIndex == p.snapshotIndex && p.term <= q.term
    requires q.commitIndex == p.commitIndex || q.commitIndex == 0
    requires q.lastApplied <= q.commitIndex
    requires q.role == Leader ==> p.role == Leader && q.term == p.term && MatchOk(c, log, q)
    ensures PeerSafe(d, log, q)
  {
    hide Extends, CoveredBy, MatchOk;
    CommittedShrinks(c, log, Settled(p), Settled(q), p.term);
    CommittedGrows(c, d, log, Settled(q), p.term, log, q.term);
    if q.role == Leader {
      MatchGrows(c, d, log, log, q);
    }
  }

  /** What a quiet step does to the peer that takes it. */
  predicate Quiet(p: Peer, q: Peer) {
    && q.snapshotIndex == p.snapshotIndex && p.term <= q.term
    && (q.commitIndex == p.commitIndex || q.commitIndex == 0)
    && (q.lastApplied == 0 || (q.lastApplied == p.lastApplied && q.commitIndex == p.commitIndex))
    && (q.role == Leader ==>
          p.role == Leader && q.term == p.term && q.matchIndex == p.matchIndex && q.commitIndex == p.commitIndex)
  }

  /** A step that sends and applies nothing and leaves the log of server `i` as it is. */
  lemma QuietFrame(s: System, c: Core, t: System, d: Core, i: nat)
    requires SafeInv(s, c) && Evolves(c, d, i) && i < |s.peers| == |t.peers|
    requires t.peers == s.peers[i := t.peers[i]] && t.net == s.net && t.applied == s.applied
    requires d.nodes[i].log == c.nodes[i].log && Quiet(s.peers[i], t.peers[i])
    ensures SafeInv(t, d)
  {
    hide Extends, Committed, MessageSafe, AppliedSafe, ProbeBound;
    SameLog(c, d, c.nodes[i].log, s.peers[i], t.peers[i]);
    SafeFrame(s, c, t, d, i);
  }

  lemma StepEvolves(s: System, c: Core, step: Step)
    requires BaseInv(s, c) && Shaped(s) && Enabled(s, step)
    ensures Evolves(c, CoreStep(s, c, step), Actor(step))
  {
    StepKeeps(s, c, step);
  }

  lemma TimeoutSafe(s: System, c: Core, i: nat)
    requires BaseInv(s, c) && SafeInv(s, c) && Shaped(s) && Enabled(s, Timeout(i))
    ensures SafeInv(Do(s, Timeout(i)), CoreStep(s, c, Timeout(i)))
  {
    hide CoreInv, SafeInv, Extends;
    StepEvolves(s, c, Timeout(i));
    QuietFrame(s, c, Do(s, Timeout(i)), CoreStep(s, c, Timeout(i)), i);
  }

  lemma CrashSafe(s: System, c: Core, i: nat)
    requires BaseInv(s, c) && SafeInv(s, c) && Shaped(s) && Enabled(s, Crash(i))
    ensures SafeInv(Do(s, Crash(i)), CoreStep(s, c, Crash(i)))
  {
    hide CoreInv, SafeInv, Extends;
    StepEvolves(s, c, Crash(i));
    QuietFrame(s, c, Do(s, Crash(i)), CoreStep(s, c, Crash(i)), i);
  }

  lemma VoteKeepsLog(c: Core, v: nat, cand: nat, p: Peer, args: VoteArgs)
    requires v < |c.nodes| && |p.logs| > 0
    ensures VoteCore(c, v, cand, p, args).nodes[v].log == c.nodes[v].log
  {
    hide HandleVote, Adopt, Grant;
    VotingKeepsLog(c, v, cand, args.term);
    VotingKeepsLog(Adopt(c, v, args.term), v, cand, args.term);
  }

  lemma VotingKeepsLog(c: Core, v: nat, cand: nat, term: nat)
    requires v < |c.nodes|
    ensures |Adopt(c, v, term).nodes| == |c.nodes| && Adopt(c, v, term).nodes[v].log == c.nodes[v].log
    ensures |Grant(c, v, cand).nodes| == |c.nodes| && Grant(c, v, cand).nodes[v].log == c.nodes[v].log
  {
  }

  lemma VoteIsQuiet(p: Peer, args: VoteArgs)
    requires |p.logs| > 0
    ensures Quiet(p, HandleVote(p, args).0)
  {
  }

  lemma DeliverVoteSafe(s: System, c: Core, call: VoteCall)
    requires BaseInv(s, c) && SafeInv(s, c) && Shaped(s) && Enabled(s, DeliverVote(call))
    ensures SafeInv(Do(s, DeliverVote(call)), CoreStep(s, c, DeliverVote(call)))
  {
    hide CoreInv, SafeInv, Extends, HandleVote, VoteCore, Quiet;
    var step := DeliverVote(call);
    StepEvolves(s, c, step);
    VoteKeepsLog(c, call.voter, call.candidate, s.peers[call.voter], s.votes[call].args);
    VoteIsQuiet(s.peers[call.voter], s.votes[call].args);
    QuietFrame(s, c, Do(s, step), CoreStep(s, c, step), call.voter);
  }

  // ---------------------------------------------------------------- becoming leader

  lemma WinnerSafe(c: Core, d: Core, log: seq<Entry>, p: Peer)
    requires PeerSafe(c, log, p) && Extends(c, d) && |p.logs| > 0 && p.Last() == |log| - 1 && p.me < |p.matchIndex|
    requires Ack(p.term, p.me, |log| - 1) in d.acks
    ensures PeerSafe(d, log, BecomeLeader(p.(voteCount := p.voteCount + 1)))
  {
    hide Extends, CoveredBy;
    var q := BecomeLeader(p.(voteCount := p.voteCount + 1));
    CommittedGrows(c, d, log, Settled(p), p.term, log, q.term);
    assert AckedTo(d, p.term, p.me, |log| - 1);
  }

  /** The core of a vote reply: the log stays, and a win acknowledges all of it in a term nothing was sent in. */
  lemma VoteReplyEffect(c: Core, i: nat, v: nat, p: Peer, reply: VoteReply)
    requires CoreInv(c) && PeerOk(c, i, p) && |c.nodes[i].log| > 0
    ensures var d, q := VoteReplyCore(c, i, v, p, reply), HandleVoteReply(p, reply);
            && i < |d.nodes| && d.nodes[i].log == c.nodes[i].log
            && (!(p.role == Candidate && q.role == Leader) ==> Quiet(p, q))
            && (p.role == Candidate && q.role == Leader ==>
                  && q == BecomeLeader(p.(voteCount := p.voteCount + 1))
                  && Ack(p.term, i, |c.nodes[i].log| - 1) in d.acks
                  && KeepsBound(c, p, q, i))
  {
    hide InvLogs, InvVotes, InvAcks;
    assert GoodRole(c, i);
  }

  lemma WholeLength(c: Core, i: nat, p: Peer)
    requires PeerOk(c, i, p)
    ensures |p.logs| > 0 && p.Last() == |c.nodes[i].log| - 1 && p.me == i < |p.matchIndex| == |p.nextIndex| == |c.nodes|
    ensures |c.nodes[i].log| > 0
  {
  }

  lemma TakeVoteReplySafe(s: System, c: Core, call: VoteCall)
    requires BaseInv(s, c) && SafeInv(s, c) && Shaped(s) && Enabled(s, TakeVoteReply(call))
    ensures SafeInv(Do(s, TakeVoteReply(call)), CoreStep(s, c, TakeVoteReply(call)))
  {
    hide CoreInv, Extends, PeerOk, VoteReplyCore, HandleVoteReply, PeerSafe, KeepsBound, MessageSafe, ProbeBound,
      AppliedSafe, Quiet, BecomeLeader;
    var step, i := TakeVoteReply(call), call.candidate;
    StepEvolves(s, c, step);
    var t, d, p := Do(s, step), CoreStep(s, c, step), s.peers[i];
    assert PeerOk(c, i, p);
    WholeLength(c, i, p);
    VoteReplyEffect(c, i, call.voter, p, s.votes[call].reply);
    if p.role == Candidate && t.peers[i].role == Leader {
      WinnerSafe(c, d, c.nodes[i].log, p);
      SafeFrame(s, c, t, d, i);
    } else {
      QuietFrame(s, c, t, d, i);
    }
  }

  // ---------------------------------------------------------------- the leader's own log

  lemma OwnAppendSafe(c: Core, d: Core, log: seq<Entry>, p: Peer, command: Command)
    requires PeerSafe(c, log, p) && Extends(c, d) && p.role == Leader && |p.logs| > 0
    requires p.Last() == |log| - 1 && p.me < |p.matchIndex| && p.me < |p.nextIndex|
    requires Ack(p.term, p.me, |log|) in d.acks
    ensures PeerSafe(d, log + [Entry(|log|, p.term, command)], Propose(p, command))
  {
    hide Extends, CoveredBy;
    var log', q := log + [Entry(|log|, p.term, command)], Propose(p, command);
    CommittedGrows(c, d, log, Settled(p), p.term, log', q.term);
    MatchGrows(c, d, log, log', p);
    assert AckedTo(d, p.term, p.me, |log|);
    forall j | 0 <= j < |q.matchIndex| && q.matchIndex[j] > 0 ensures Backed(d, log', q.term, j, q.matchIndex[j]) {
      assert j != p.me ==> Backed(d, log', p.term, j, p.matchIndex[j]);
    }
  }

  lemma ClientStartSafe(s: System, c: Core, i: nat, command: Command)
    requires BaseInv(s, c) && SafeInv(s, c) && Shaped(s) && Enabled(s, ClientStart(i, command))
    ensures SafeInv(Do(s, ClientStart(i, command)), CoreStep(s, c, ClientStart(i, command)))
  {
    hide CoreInv, Extends, PeerOk, PeerSafe, MessageSafe, ProbeBound, AppliedSafe;
    var step := ClientStart(i, command);
    StepEvolves(s, c, step);
    var t, d, p := Do(s, step), CoreStep(s, c, step), s.peers[i];
    assert PeerOk(c, i, p);
    WholeLength(c, i, p);
    if p.role == Leader {
      OwnTerm(c, i, p);
      OwnAppendSafe(c, d, c.nodes[i].log, p, command);
      SafeFrame(s, c, t, d, i);
    } else {
      QuietFrame(s, c, t, d, i);
    }
  }

  lemma OwnTerm(c: Core, i: nat, p: Peer)
    requires PeerOk(c, i, p)
    ensures p.term == c.nodes[i].term
  {
  }

  lemma TailIsSlice(log: seq<Entry>, k: nat)
    requires k <= |log|
    ensures log[k..] == log[k..k + |log[k..]|]
  {
  }

  /** A probe within the log is a piece of it up to its end, so it covers the commit index. */
  lemma AppendProbeSafe(c: Core, i: nat, p: Peer, to: nat)
    requires CoreInv(c) && PeerOk(c, i, p) && PeerSafe(c, c.nodes[i].log, p) && to < |c.nodes| && to != i
    requires CheckConsistency(p, to).SendAppend? && p.nextIndex[to] <= p.Last() + 1
    ensures MessageSafe(c, AppendMsg(to, CheckConsistency(p, to).append))
    ensures CheckConsistency(p, to).append.leader == i && CheckConsistency(p, to).append.prevIndex >= p.snapshotIndex
  {
    hide InvLogs, InvVotes, InvAcks, InvLeaders, CoveredBy, Compacted;
    LeaderBasics(c, i);
    var log, prev := c.nodes[i].log, p.nextIndex[to] - 1;
    CompactedAt(log, p.snapshotIndex, prev - p.snapshotIndex);
    TailIsSlice(log, prev + 1);
    CommittedShrinks(c, log, Settled(p), p.commitIndex, p.term);
  }

  lemma SnapshotProbeSafe(c: Core, i: nat, p: Peer, to: nat)
    requires CoreInv(c) && PeerOk(c, i, p) && PeerSafe(c, c.nodes[i].log, p) && to < |c.nodes|
    requires CheckConsistency(p, to).SendSnapshot?
    ensures MessageSafe(c, SnapshotMsg(to, CheckConsistency(p, to).snapshot))
  {
    hide InvLogs, InvVotes, InvAcks, InvLeaders, CoveredBy, Compacted;
    LeaderBasics(c, i);
    CommittedShrinks(c, c.nodes[i].log, Settled(p), p.snapshotIndex, p.term);
  }

  lemma CheckSafe(s: System, c: Core, i: nat, to: nat)
    requires BaseInv(s, c) && SafeInv(s, c) && Shaped(s) && Enabled(s, Check(i, to)) && Guarded(s, Check(i, to))
    ensures SafeInv(Do(s, Check(i, to)), c)
  {
    hide CoreInv, PeerSafe, MessageSafe, AppliedSafe, CheckConsistency, CountOk, FlightOk, MessageOk;
    var p := s.peers[i];
    assert PeerOk(c, i, p) && PeerSafe(c, c.nodes[i].log, p);
    if CheckConsistency(p, to).SendAppend? {
      AppendProbeSafe(c, i, p, to);
    } else if CheckConsistency(p, to).SendSnapshot? {
      SnapshotProbeSafe(c, i, p, to);
    }
  }

  // ---------------------------------------------------------------- appends

  /** Where the commit index goes when `p` becomes `q`. */
  function CommitAfter(p: Peer, q: Peer, args: AppendArgs): int {
    if args.leaderCommit > p.commitIndex then Min(args.leaderCommit, q.Last()) else p.commitIndex
  }

  /** What an append does to the fields of a peer besides its log. */
  lemma AppendAnswer(p: Peer, args: AppendArgs)
    requires |p.logs| > 0
    ensures var (q, reply) := HandleAppend(p, args);
            && (reply.success ==>
                  && reply.term == args.term == q.term && args.term >= p.term && q.role != Leader
                  && q.commitIndex == CommitAfter(p, q, args))
            && (!reply.success ==> Quiet(p, q))
            && q.snapshotIndex == p.snapshotIndex && q.lastApplied == p.lastApplied
            && (q.role == Leader ==> q == p)
  {
    hide Merge, MatchLen, RunStart;
  }

  lemma AppendAcks(c: Core, i: nat, p: Peer, args: AppendArgs)
    requires i < |c.nodes| && |p.logs| > 0 && p.term == c.nodes[i].term && Piece(c.termLog, args)
    requires HandleAppend(p, args).1.success
    ensures var d, k := AppendCore(c, i, p, args), args.prevIndex + |args.entries|;
            && i < |d.nodes| && d.nodes[i].log == Taken(c.nodes[i].log, c.termLog[args.term], k)
            && Ack(args.term, i, k) in d.acks
  {
    hide Piece;
    PieceTerm(c, args);
    assert args.term >= p.term;
  }

  lemma RefusalKeepsLog(c: Core, i: nat, p: Peer, args: AppendArgs)
    requires i < |c.nodes| && |p.logs| > 0 && p.term == c.nodes[i].term
    requires !HandleAppend(p, args).1.success
    ensures var d := AppendCore(c, i, p, args); i < |d.nodes| && d.nodes[i].log == c.nodes[i].log
  {
    hide HandleAppend, Piece;
  }

  /** The commit index a follower moves to covers nothing but committed entries. */
  lemma FollowerCommits(c: Core, d: Core, log: seq<Entry>, p: Peer, q: Peer, args: AppendArgs)
    requires CoreInv(d) && Extends(c, d) && PeerSafe(c, log, p) && GoodLog(log) && p.term <= args.term == q.term
    requires args.leaderCommit <= args.prevIndex + |args.entries|
    requires Piece(d.termLog, args) && Committed(d, d.termLog[args.term], args.leaderCommit, args.term)
    requires q.commitIndex == Max(p.commitIndex, args.leaderCommit)
    requires q.snapshotIndex == p.snapshotIndex && q.lastApplied == p.lastApplied && q.role != Leader
    ensures PeerSafe(d, Taken(log, d.termLog[args.term], args.prevIndex + |args.entries|), q)
  {
    hide Extends, CoveredBy, CoreInv, Chosen;
    var l, k := d.termLog[args.term], args.prevIndex + |args.entries|;
    var log' := Taken(log, l, k);
    ExtendsSelf(d);
    if args.leaderCommit > Settled(p) {
      CommittedGrows(d, d, l, args.leaderCommit, args.term, log', q.term);
    } else {
      CommittedGrows(c, d, log, Settled(p), p.term, log, p.term);
      CommittedSurvives(d, log, Settled(p), p.term, args.term, k);
      CommittedGrows(d, d, log, Settled(p), p.term, log', q.term);
    }
  }

  lemma ExtendsSelf(c: Core)
    ensures Extends(c, c)
  {
  }

  lemma AppendSafe(c: Core, i: nat, p: Peer, args: AppendArgs)
    requires CoreInv(c) && PeerOk(c, i, p) && PeerSafe(c, c.nodes[i].log, p) && Piece(c.termLog, args)
    requires args.leaderCommit <= args.prevIndex + |args.entries|
    requires Committed(c, c.termLog[args.term], args.leaderCommit, args.term)
    ensures var d := AppendCore(c, i, p, args);
            i < |d.nodes| && PeerSafe(d, d.nodes[i].log, HandleAppend(p, args).0)
  {
    hide CoreInv, HandleAppend, AppendCore, Piece, PeerSafe, Committed, PeerOk, Extends, Quiet, Taken;
    WholeLength(c, i, p);
    OwnTerm(c, i, p);
    AppendCoreKeeps(c, i, p, args);
    AppendAnswer(p, args);
    var d, q := AppendCore(c, i, p, args), HandleAppend(p, args).0;
    if HandleAppend(p, args).1.success {
      AppendAcks(c, i, p, args);
      SuccessSafe(c, d, i, p, q, args);
    } else {
      RefusalKeepsLog(c, i, p, args);
      QuietSafe(c, d, c.nodes[i].log, p, q);
    }
  }

  lemma QuietSafe(c: Core, d: Core, log: seq<Entry>, p: Peer, q: Peer)
    requires PeerSafe(c, log, p) && Extends(c, d) && Quiet(p, q)
    ensures PeerSafe(d, log, q)
  {
    hide Extends, Committed;
    SameLog(c, d, log, p, q);
  }

  lemma GoodWhole(c: Core, i: nat)
    requires CoreInv(c) && i < |c.nodes|
    ensures GoodLog(c.nodes[i].log)
  {
    hide InvVotes, InvLeaders, InvAcks;
    assert GoodNode(c, i);
  }

  lemma SuccessSafe(c: Core, d: Core, i: nat, p: Peer, q: Peer, args: AppendArgs)
    requires CoreInv(c) && PeerOk(c, i, p) && PeerSafe(c, c.nodes[i].log, p) && Piece(c.termLog, args)
    requires Committed(c, c.termLog[args.term], args.leaderCommit, args.term)
    requires args.leaderCommit <= args.prevIndex + |args.entries| && p.term <= args.term == q.term
    requires CoreInv(d) && PeerOk(d, i, q) && Extends(c, d) && d.termLog == c.termLog
    requires d.nodes[i].log == Taken(c.nodes[i].log, c.termLog[args.term], args.prevIndex + |args.entries|)
    requires q.commitIndex == CommitAfter(p, q, args)
    requires q.snapshotIndex == p.snapshotIndex && q.lastApplied == p.lastApplied && q.role != Leader
    ensures PeerSafe(d, d.nodes[i].log, q)
  {
    hide CoreInv, InvLogs, Extends, PeerSafe, PeerOk, CoveredBy;
    WholeLength(c, i, p);
    GoodWhole(c, i);
    WholeLength(d, i, q);
    var l := c.termLog[args.term];
    assert q.Last() >= args.prevIndex + |args.entries|;
    CommittedGrows(c, d, l, args.leaderCommit, args.term, l, args.term);
    FollowerCommits(c, d, c.nodes[i].log, p, q, args);
  }

  lemma DeliverAppendSafe(s: System, c: Core, m: Message)
    requires BaseInv(s, c) && SafeInv(s, c) && Shaped(s) && Enabled(s, DeliverAppend(m))
    ensures SafeInv(Do(s, DeliverAppend(m)), CoreStep(s, c, DeliverAppend(m)))
  {
    hide CoreInv, HandleAppend, AppendCore, Extends, Committed, PeerOk, PeerSafe, Piece, AppliedSafe, Quiet;
    var step := DeliverAppend(m);
    StepEvolves(s, c, step);
    var t, d, i, args := Do(s, step), CoreStep(s, c, step), m.to, m.append;
    var p, reply := s.peers[i], HandleAppend(s.peers[i], args).1;
    assert MessageSafe(c, m) && ProbeBound(s.peers, m) && PeerOk(c, i, p) && PeerSafe(c, c.nodes[i].log, p);
    WholeLength(c, i, p);
    OwnTerm(c, i, p);
    AppendSafe(c, i, p, args);
    AppendAnswer(p, args);
    if reply.success {
      AppendAcks(c, i, p, args);
    }
    MessageSafeGrows(c, d, m);
    SafeFrame(s, c, t, d, i);
  }

  // ---------------------------------------------------------------- snapshots

  /** What a snapshot does to the fields of a peer besides its log. */
  lemma SnapshotAnswer(p: Peer, args: SnapshotArgs)
    ensures var (q, term) := HandleSnapshot(p, args);
            && term >= args.term
            && (Installs(p, args) ==>
                  && q.term == args.term && q.snapshotIndex == args.lastIndex && q.commitIndex == p.commitIndex
                  && q.lastApplied == p.lastApplied && q.role != Leader)
            && (!Installs(p, args) ==> Quiet(p, q))
            && (q.role == Leader ==> q == p)
  {
  }

  predicate Installs(p: Peer, args: SnapshotArgs) {
    args.term >= p.term && args.lastIndex > p.snapshotIndex && args.lastIndex > p.commitIndex
  }

  lemma SnapshotLog(c: Core, i: nat, p: Peer, args: SnapshotArgs)
    requires i < |c.nodes| && p.term == c.nodes[i].term
    requires args.term in c.termLog && args.lastIndex < |c.termLog[args.term]|
    ensures var d := SnapshotCore(c, i, p, args);
            && i < |d.nodes| && d.termLog == c.termLog
            && d.nodes[i].log
            == if Installs(p, args) then Taken(c.nodes[i].log, c.termLog[args.term], args.lastIndex) else c.nodes[i].log
  {
  }

  lemma SnapshotPeerSafe(c: Core, i: nat, p: Peer, args: SnapshotArgs)
    requires CoreInv(c) && PeerOk(c, i, p) && PeerSafe(c, c.nodes[i].log, p) && SnapshotSafe(c, args)
    requires args.lastIndex < |c.termLog[args.term]| && Extends(c, SnapshotCore(c, i, p, args))
    ensures var d := SnapshotCore(c, i, p, args);
            i < |d.nodes| && PeerSafe(d, d.nodes[i].log, HandleSnapshot(p, args).0)
  {
    hide CoreInv, PeerOk, HandleSnapshot, SnapshotCore, Extends, Quiet, CoveredBy;
    OwnTerm(c, i, p);
    WholeLength(c, i, p);
    SnapshotAnswer(p, args);
    SnapshotLog(c, i, p, args);
    var d, q, l := SnapshotCore(c, i, p, args), HandleSnapshot(p, args).0, c.termLog[args.term];
    if Installs(p, args) {
      CommittedGrows(c, d, l, args.lastIndex, args.term, d.nodes[i].log, q.term);
    } else {
      QuietSafe(c, d, c.nodes[i].log, p, q);
    }
  }

  lemma DeliverSnapshotSafe(s: System, c: Core, m: Message)
    requires BaseInv(s, c) && SafeInv(s, c) && Shaped(s) && Enabled(s, DeliverSnapshot(m))
    ensures SafeInv(Do(s, DeliverSnapshot(m)), CoreStep(s, c, DeliverSnapshot(m)))
  {
    hide CoreInv, HandleSnapshot, SnapshotCore, Extends, Committed, PeerOk, PeerSafe, AppliedSafe, Quiet;
    var step := DeliverSnapshot(m);
    StepEvolves(s, c, step);
    var t, d, i, args := Do(s, step), CoreStep(s, c, step), m.to, m.snapshot;
    var p := s.peers[i];
    assert MessageOk(c, m) && MessageSafe(c, m) && PeerOk(c, i, p) && PeerSafe(c, c.nodes[i].log, p);
    SnapshotPeerSafe(c, i, p, args);
    SnapshotAnswer(p, args);
    MessageSafeGrows(c, d, m);
    SafeFrame(s, c, t, d, i);
  }

  /** A snapshot reply, of whatever term its request was, points at a committed prefix of the leader's log. */
  lemma SnapshotReplySafe(c: Core, i: nat, p: Peer, from: nat, args: SnapshotArgs, term: nat)
    requires CoreInv(c) && PeerOk(c, i, p) && PeerSafe(c, c.nodes[i].log, p) && from < |c.nodes|
    requires p.role == Leader && p.term == term && args.term <= term && SnapshotSafe(c, args)
    ensures PeerSafe(c, c.nodes[i].log, HandleSnapshotReply(p, from, args, term))
  {
    hide CoreInv, CoveredBy, AckedTo;
    LeaderBasics(c, i);
    var log, l := c.nodes[i].log, c.termLog[args.term];
    GoodTerm(c, args.term);
    LeaderHasCommitted(c, l, args.lastIndex, args.term, p.term);
    ExtendsSelf(c);
    CommittedGrows(c, c, l, args.lastIndex, args.term, log, p.term);
    var q := HandleSnapshotReply(p, from, args, term);
    forall j | 0 <= j < |q.matchIndex| && q.matchIndex[j] > 0 ensures Backed(c, log, q.term, j, q.matchIndex[j]) {
      assert j != from ==> Backed(c, log, p.term, j, p.matchIndex[j]);
    }
  }

  lemma GoodTerm(c: Core, t: nat)
    requires CoreInv(c) && t in c.termLog
    ensures GoodLog(c.termLog[t])
  {
    hide InvVotes, InvLeaders, InvAcks;
    assert GoodTermLog(c, t);
  }

  lemma DeposeKeepsLog(c: Core, i: nat, p: Peer, term: nat)
    requires i < |c.nodes|
    ensures var d := DeposeCore(c, i, p, term); i < |d.nodes| && d.nodes[i].log == c.nodes[i].log
    ensures p.role == Leader && term == p.term ==> DeposeCore(c, i, p, term) == c
  {
  }

  lemma TakeSnapshotReplySafe(s: System, c: Core, m: Message)
    requires BaseInv(s, c) && SafeInv(s, c) && Shaped(s) && Enabled(s, TakeSnapshotReply(m))
    ensures SafeInv(Do(s, TakeSnapshotReply(m)), CoreStep(s, c, TakeSnapshotReply(m)))
  {
    hide CoreInv, Extends, Committed, PeerOk, PeerSafe, AppliedSafe, DeposeCore, ProbeBound;
    var step := TakeSnapshotReply(m);
    StepEvolves(s, c, step);
    var t, d, i := Do(s, step), CoreStep(s, c, step), m.snapshot.leader;
    var p := s.peers[i];
    assert MessageSafe(c, m) && PeerOk(c, i, p) && PeerSafe(c, c.nodes[i].log, p);
    DeposeKeepsLog(c, i, p, m.term);
    if p.role == Leader && m.term == p.term {
      SnapshotReplySafe(c, i, p, m.from, m.snapshot, m.term);
      SafeFrame(s, c, t, d, i);
    } else {
      QuietFrame(s, c, t, d, i);
    }
  }

  // ---------------------------------------------------------------- replies

  /** The current-term majority rule commits only what a majority acknowledged or what was committed before. */
  lemma MajorityCommits(c: Core, log: seq<Entry>, p: Peer, m: nat)
    requires p.term in c.termLog && c.termLog[p.term] == log && |p.matchIndex| == |p.nextIndex| == |c.nodes|
    requires 0 < m < |log| && log[m].term == p.term
    requires MatchOk(c, log, p) && |Matched(p.matchIndex, m)| > |p.nextIndex| / 2
    ensures Committed(c, log, m, p.term)
  {
    var q := Matched(p.matchIndex, m);
    if v :| v in q && Committed(c, log, p.matchIndex[v], p.term) {
      CommittedShrinks(c, log, p.matchIndex[v], m, p.term);
    } else {
      MajorityChooses(c, log, p, m);
    }
  }

  lemma MajorityChooses(c: Core, log: seq<Entry>, p: Peer, m: nat)
    requires p.term in c.termLog && c.termLog[p.term] == log && |p.matchIndex| == |p.nextIndex| == |c.nodes|
    requires 0 < m < |log| && log[m].term == p.term && |Matched(p.matchIndex, m)| > |p.nextIndex| / 2
    requires forall v :: v in Matched(p.matchIndex, m) ==> AckedTo(c, p.term, v, p.matchIndex[v])
    ensures Chosen(c, p.term, m) && Committed(c, log, m, p.term)
  {
    var q := Matched(p.matchIndex, m);
    forall v | v in q ensures AckedTo(c, p.term, v, m) {
      assert AckedTo(c, p.term, v, p.matchIndex[v]);
    }
    assert AckQuorum(c, p.term, m, q);
    assert CoveredBy(c, log, m, p.term, p.term, m);
  }

  lemma MatchAdvances(c: Core, log: seq<Entry>, p: Peer, from: nat, m: nat)
    requires MatchOk(c, log, p) && from < |p.matchIndex| && from < |p.nextIndex|
    requires m < |log| && AckedTo(c, p.term, from, m)
    ensures MatchOk(c, log, p.(matchIndex := p.matchIndex[from := m], nextIndex := p.nextIndex[from := m + 1]))
  {
    hide AckedTo, Committed;
  }

  /** What the leader does with a success that raises a match index. */
  function Advanced(p: Peer, from: nat, m: nat): Peer
    requires from < |p.nextIndex| && from < |p.matchIndex|
  {
    p.(matchIndex := p.matchIndex[from := m], nextIndex := p.nextIndex[from := m + 1])
  }

  /** An acknowledged index that raises the commit index lies inside the stored log. */
  lemma SuccessOutcome(p: Peer, from: nat, args: AppendArgs, reply: AppendReply)
    requires from < |p.nextIndex| && from < |p.matchIndex| && p.role == Leader && reply.term == p.term && reply.success
    requires args.prevIndex + |args.entries| > p.matchIndex[from]
    requires p.snapshotIndex <= Max(p.commitIndex, args.prevIndex) && args.prevIndex + |args.entries| <= p.Last()
    ensures var m, r := args.prevIndex + |args.entries|, HandleAppendReply(p, from, args, reply);
            && r.Some?
            && (r.value == Advanced(p, from, m)
                || (r.value == Advanced(p, from, m).(commitIndex := m) && Advances(p, from, m)))
  {
    hide Matched;
  }

  predicate Advances(p: Peer, from: nat, m: nat)
    requires from < |p.nextIndex| && from < |p.matchIndex|
  {
    && m > p.commitIndex && 0 <= m - p.snapshotIndex < |p.logs| && p.logs[m - p.snapshotIndex].term == p.term
    && |Matched(Advanced(p, from, m).matchIndex, m)| > |p.nextIndex| / 2
  }

  lemma AdvanceSafe(c: Core, i: nat, p: Peer, from: nat, m: nat)
    requires CoreInv(c) && PeerOk(c, i, p) && PeerSafe(c, c.nodes[i].log, p) && p.role == Leader && from < |c.nodes|
    requires m < |c.nodes[i].log| && AckedTo(c, p.term, from, m)
    ensures PeerSafe(c, c.nodes[i].log, Advanced(p, from, m))
    ensures Advances(p, from, m) ==> PeerSafe(c, c.nodes[i].log, Advanced(p, from, m).(commitIndex := m))
  {
    hide CoreInv, Compacted, Committed, AckedTo, Matched;
    LeaderBasics(c, i);
    var log, q := c.nodes[i].log, Advanced(p, from, m);
    MatchAdvances(c, log, p, from, m);
    if Advances(p, from, m) {
      CompactedAt(log, p.snapshotIndex, m - p.snapshotIndex);
      MajorityCommits(c, log, q, m);
    }
  }

  /** A reply never makes the leader read outside its log, and keeps its match indexes backed. */
  lemma ReplySafe(c: Core, i: nat, p: Peer, from: nat, args: AppendArgs, reply: AppendReply)
    requires CoreInv(c) && PeerOk(c, i, p) && PeerSafe(c, c.nodes[i].log, p) && from < |c.nodes|
    requires MessageSafe(c, AppendReplyMsg(from, args, reply)) && p.role == Leader && reply.term == p.term
    requires args.term == p.term ==> p.snapshotIndex <= Max(p.commitIndex, args.prevIndex)
    ensures HandleAppendReply(p, from, args, reply).Some?
    ensures var q := HandleAppendReply(p, from, args, reply).value;
            PeerSafe(c, c.nodes[i].log, q) && KeepsBound(c, p, q, i)
  {
    hide CoreInv, Compacted, CoveredBy, Matched, Advances, AckedTo;
    WholeLength(c, i, p);
    if reply.success {
      LeaderBasics(c, i);
      var m := args.prevIndex + |args.entries|;
      PieceTerm(c, args);
      if m > p.matchIndex[from] {
        AckIs(c, args.term, from, m);
        SuccessOutcome(p, from, args, reply);
        AdvanceSafe(c, i, p, from, m);
      }
    }
  }

  lemma AckIs(c: Core, t: nat, from: nat, m: nat)
    requires Ack(t, from, m) in c.acks
    ensures AckedTo(c, t, from, m)
  {
  }

  lemma TakeAppendReplySafe(s: System, c: Core, m: Message)
    requires BaseInv(s, c) && SafeInv(s, c) && Shaped(s) && Enabled(s, TakeAppendReply(m))
    ensures SafeInv(Do(s, TakeAppendReply(m)), CoreStep(s, c, TakeAppendReply(m)))
  {
    hide CoreInv, Extends, Committed, PeerOk, PeerSafe, AppliedSafe, DeposeCore, Piece, KeepsBound;
    var step := TakeAppendReply(m);
    StepEvolves(s, c, step);
    var t, d, i := Do(s, step), CoreStep(s, c, step), m.append.leader;
    var p := s.peers[i];
    assert MessageSafe(c, m) && ProbeBound(s.peers, m) && PeerOk(c, i, p) && PeerSafe(c, c.nodes[i].log, p);
    DeposeKeepsLog(c, i, p, m.reply.term);
    if p.role == Leader && m.reply.term == p.term {
      ReplySafe(c, i, p, m.from, m.append, m.reply);
      SafeFrame(s, c, t, d, i);
    } else {
      QuietFrame(s, c, t, d, i);
    }
  }

  // ---------------------------------------------------------------- applying and compacting

  /** What the apply loop hands out is in the whole log, up to the commit index. */
  lemma HandedFromLog(log: seq<Entry>, p: Peer, a: Applied)
    requires Represents(p, log) && Apply(p).Some? && a in Handed(p.me, Apply(p).value.1)
    ensures p.snapshotIndex < a.index <= p.commitIndex && a.index < |log| && a.command == log[a.index].command
  {
  }

  lemma HandedSafe(c: Core, log: seq<Entry>, p: Peer, a: Applied)
    requires Represents(p, log) && PeerSafe(c, log, p) && Apply(p).Some? && a in Handed(p.me, Apply(p).value.1)
    ensures AppliedSafe(c, a)
  {
    hide Represents, Apply, Handed, Chosen;
    HandedFromLog(log, p, a);
    var u: nat, n: nat :| CoveredBy(c, log, Settled(p), p.term, u, n);
    assert AppliedBy(c, a, u, n);
  }

  lemma ApplySafe(s: System, c: Core, i: nat)
    requires BaseInv(s, c) && SafeInv(s, c) && Shaped(s) && Enabled(s, ApplyLog(i))
    ensures SafeInv(Do(s, ApplyLog(i)), c)
  {
    hide CoreInv, Extends, Committed, AppliedSafe, MessageSafe, ProbeBound, MatchOk;
    var t, p := Do(s, ApplyLog(i)), s.peers[i];
    assert PeerOk(c, i, p) && PeerSafe(c, c.nodes[i].log, p);
    forall a | a in Handed(i, Apply(p).value.1) ensures AppliedSafe(c, a) {
      HandedSafe(c, c.nodes[i].log, p, a);
    }
    AppliedMatch(c, c.nodes[i].log, p, t.peers[i]);
    ExtendsSelf(c);
    SafeFrame(s, c, t, c, i);
  }

  lemma AppliedMatch(c: Core, log: seq<Entry>, p: Peer, q: Peer)
    requires PeerSafe(c, log, p) && q == p.(lastApplied := q.lastApplied) && q.lastApplied <= q.commitIndex
    ensures PeerSafe(c, log, q)
  {
  }

  lemma CompactSafe(s: System, c: Core, i: nat, index: nat)
    requires BaseInv(s, c) && SafeInv(s, c) && Shaped(s) && Enabled(s, CompactLog(i, index))
    requires Guarded(s, CompactLog(i, index))
    ensures SafeInv(Do(s, CompactLog(i, index)), c)
  {
    hide CoreInv, Extends, Committed, AppliedSafe, MessageSafe, ProbeBound;
    var t, p := Do(s, CompactLog(i, index)), s.peers[i];
    assert PeerSafe(c, c.nodes[i].log, p);
    CompactedMatch(c, c.nodes[i].log, p, t.peers[i]);
    ExtendsSelf(c);
    SafeFrame(s, c, t, c, i);
  }

  lemma CompactedMatch(c: Core, log: seq<Entry>, p: Peer, q: Peer)
    requires PeerSafe(c, log, p) && q == p.(logs := q.logs, snapshotIndex := q.snapshotIndex)
    requires q.snapshotIndex <= Settled(p)
    ensures PeerSafe(c, log, q)
  {
    hide CoveredBy;
    CommittedShrinks(c, log, Settled(p), Settled(q), p.term);
  }

  lemma SafeStepKeeps(s: System, c: Core, step: Step)
    requires BaseInv(s, c) && SafeInv(s, c) && Shaped(s) && Enabled(s, step) && Guarded(s, step)
    ensures SafeInv(Do(s, step), CoreStep(s, c, step))
  {
    hide CoreInv, SafeInv, Do, Guarded;
    match step
    case Timeout(i) => TimeoutSafe(s, c, i);
    case DeliverVote(call) => DeliverVoteSafe(s, c, call);
    case TakeVoteReply(call) => TakeVoteReplySafe(s, c, call);
    case ClientStart(i, command) => ClientStartSafe(s, c, i, command);
    case Check(i, to) => CheckSafe(s, c, i, to);
    case DeliverAppend(m) => DeliverAppendSafe(s, c, m);
    case TakeAppendReply(m) => TakeAppendReplySafe(s, c, m);
    case DeliverSnapshot(m) => DeliverSnapshotSafe(s, c, m);
    case TakeSnapshotReply(m) => TakeSnapshotReplySafe(s, c, m);
    case CompactLog(i, index) => CompactSafe(s, c, i, index);
    case ApplyLog(i) => ApplySafe(s, c, i);
    case Crash(i) => CrashSafe(s, c, i);
  }
}
