/**
 What every reachable state of the cluster satisfies, with or without
 compaction: some `Core` describes it.
 */
module RaftInvariant {
  import opened RaftTypes
  import opened RaftCore
  import opened RaftPeer
  import opened RaftCompaction
  import opened RaftSystem

  /** The request carries a piece of the log of the leader of its term. */
  predicate Piece(tl: map<nat, seq<Entry>>, args: AppendArgs) {
    && args.term in tl
    && var l := tl[args.term];
       && args.prevIndex + |args.entries| < |l|
       && l[args.prevIndex].term == args.prevTerm
       && args.entries == l[args.prevIndex + 1..args.prevIndex + 1 + |args.entries|]
  }

  ghost predicate PeerOk(c: Core, i: nat, p: Peer) {
    && i < |c.nodes| && WellFormed(p, |c.nodes|) && p.me == i
    && p.term == c.nodes[i].term && p.votedFor == c.nodes[i].votedFor && p.role == c.nodes[i].role
    && Represents(p, c.nodes[i].log)
  }

  ghost predicate CountOk(c: Core, i: nat, p: Peer, votes: map<VoteCall, Flight>)
    requires i < |c.nodes|
  {
    p.role == Candidate ==>
      && p.voteCount == |c.nodes[i].counted|
      && forall v :: v in c.nodes[i].counted ==> v < |c.nodes| && VoteCall(i, p.term, v) !in votes
  }

  ghost predicate FlightOk(c: Core, call: VoteCall, f: Flight) {
    && call.candidate < |c.nodes| && call.voter < |c.nodes|
    && call.term <= c.nodes[call.candidate].term
    && match f
       case Asked(args) =>
         && args.term == call.term && args.candidate == call.candidate
         && VotedFor(c, call.term, call.candidate, call.candidate)
         && var log := c.ballots[Slot(call.term, call.candidate)].log;
            |log| > 0 && args.lastIndex == |log| - 1 && args.lastTerm == log[|log| - 1].term
       case Answered(reply) =>
         reply.granted ==> reply.term == call.term && VotedFor(c, call.term, call.voter, call.candidate)
  }

  ghost predicate MessageOk(c: Core, m: Message) {
    match m
    case AppendMsg(to, args) =>
      && to < |c.nodes| && args.leader < |c.nodes|
      && args.term in c.leaderOf && c.leaderOf[args.term] == args.leader
      && (args.entries == [] || Piece(c.termLog, args))
    case AppendReplyMsg(from, args, _) => from < |c.nodes| && args.leader < |c.nodes|
    case SnapshotMsg(to, args) =>
      && to < |c.nodes| && args.leader < |c.nodes|
      && args.term in c.termLog && args.lastIndex < |c.termLog[args.term]|
      && c.termLog[args.term][args.lastIndex].term == args.lastTerm
    case SnapshotReplyMsg(from, args, _) => from < |c.nodes| && args.leader < |c.nodes|
  }

  ghost predicate BaseInv(s: System, c: Core) {
    && CoreInv(c) && |s.peers| == |c.nodes|
    && (forall i {:trigger s.peers[i]} :: 0 <= i < |s.peers| ==>
        PeerOk(c, i, s.peers[i]) && CountOk(c, i, s.peers[i], s.votes))
    && (forall call {:trigger s.votes[call]} :: call in s.votes ==> FlightOk(c, call, s.votes[call]))
    && (forall m {:trigger m in s.net} :: m in s.net ==> MessageOk(c, m))
  }

  // ---------------------------------------------------------------- what each step does to the core

  /** A peer that hears of `term`, which is at least its own, from a leader. */
  function HeedCore(c: Core, i: nat, term: nat): Core
    requires i < |c.nodes|
  {
    if c.nodes[i].term < term then Adopt(c, i, term) else StepDown(c, i)
  }

  function VoteCore(c: Core, v: nat, cand: nat, p: Peer, args: VoteArgs): Core
    requires v < |c.nodes| && |p.logs| > 0
  {
    if args.term < p.term then c
    else
      var d := if args.term > p.term then Adopt(c, v, args.term) else c;
      if HandleVote(p, args).1.granted && d.nodes[v].votedFor == -1 then Grant(d, v, cand) else d
  }

  function VoteReplyCore(c: Core, i: nat, v: nat, p: Peer, reply: VoteReply): Core
    requires i < |c.nodes| && |c.nodes[i].log| > 0
  {
    if p.role != Candidate || reply.term < p.term then c
    else if reply.term > p.term then Adopt(c, i, reply.term)
    else if !reply.granted then c
    else
      var d := CountVote(c, i, v);
      if p.voteCount + 1 > |p.nextIndex| / 2 then Win(d, i) else d
  }

  function AppendCore(c: Core, i: nat, p: Peer, args: AppendArgs): Core
    requires i < |c.nodes| && |p.logs| > 0 && p.term == c.nodes[i].term
  {
    if args.term < p.term then c
    else
      var d := HeedCore(c, i, args.term);
      if HandleAppend(p, args).1.success && Piece(c.termLog, args) then
        Accept(d, i, args.prevIndex + |args.entries|)
      else d
  }

  function SnapshotCore(c: Core, i: nat, p: Peer, args: SnapshotArgs): Core
    requires i < |c.nodes| && p.term == c.nodes[i].term
    requires args.term in c.termLog && args.lastIndex < |c.termLog[args.term]|
  {
    if args.term < p.term then c
    else
      var d := HeedCore(c, i, args.term);
      if args.lastIndex <= p.snapshotIndex || args.lastIndex <= p.commitIndex then d
      else Accept(d, i, args.lastIndex)
  }

  /** A reply of a later term deposes a leader. */
  function DeposeCore(c: Core, i: nat, p: Peer, term: nat): Core
    requires i < |c.nodes|
  {
    if p.role == Leader && term > p.term then Adopt(c, i, term) else c
  }

  ghost function CoreStep(s: System, c: Core, step: Step): Core
    requires BaseInv(s, c) && Shaped(s) && Enabled(s, step)
  {
    match step
    case Timeout(i) => Campaign(c, i)
    case DeliverVote(call) =>
      VoteCore(c, call.voter, call.candidate, s.peers[call.voter], s.votes[call].args)
    case TakeVoteReply(call) =>
      assert PeerOk(c, call.candidate, s.peers[call.candidate]);
      VoteReplyCore(c, call.candidate, call.voter, s.peers[call.candidate], s.votes[call].reply)
    case ClientStart(i, command) =>
      var p := s.peers[i];
      if p.role == Leader then AppendOwn(c, i, Entry(p.snapshotIndex + |p.logs|, p.term, command)) else c
    case Check(i, to) => c
    case DeliverAppend(m) =>
      assert PeerOk(c, m.to, s.peers[m.to]);
      AppendCore(c, m.to, s.peers[m.to], m.append)
    case TakeAppendReply(m) => DeposeCore(c, m.append.leader, s.peers[m.append.leader], m.reply.term)
    case DeliverSnapshot(m) =>
      assert MessageOk(c, m);
      assert PeerOk(c, m.to, s.peers[m.to]);
      SnapshotCore(c, m.to, s.peers[m.to], m.snapshot)
    case TakeSnapshotReply(m) => DeposeCore(c, m.snapshot.leader, s.peers[m.snapshot.leader], m.term)
    case CompactLog(i, _) => c
    case ApplyLog(i) => c
    case Crash(i) => StepDown(c, i)
  }

  // ---------------------------------------------------------------- frame

  /** Only server `i` moved. */
  ghost predicate Evolves(c: Core, d: Core, i: nat) {
    && Extends(c, d) && i < |c.nodes|
    && (forall j :: 0 <= j < |c.nodes| && j != i ==> d.nodes[j] == c.nodes[j])
    && c.nodes[i].term <= d.nodes[i].term
  }

  lemma FlightGrows(c: Core, d: Core, i: nat, call: VoteCall, f: Flight)
    requires Evolves(c, d, i) && FlightOk(c, call, f)
    ensures FlightOk(d, call, f)
  {
  }

  lemma PieceGrows(c: Core, d: Core, args: AppendArgs)
    requires Extends(c, d) && Piece(c.termLog, args)
    ensures Piece(d.termLog, args)
  {
    var l, l' := c.termLog[args.term], d.termLog[args.term];
    assert Agree(l, l', |l|);
  }

  lemma MessageGrows(c: Core, d: Core, m: Message)
    requires Extends(c, d) && MessageOk(c, m)
    ensures MessageOk(d, m)
  {
    if m.AppendMsg? && m.append.entries != [] {
      PieceGrows(c, d, m.append);
    }
    if m.SnapshotMsg? {
      assert Agree(c.termLog[m.snapshot.term], d.termLog[m.snapshot.term], |c.termLog[m.snapshot.term]|);
    }
  }

  lemma Frame(s: System, c: Core, t: System, d: Core, i: nat)
    requires BaseInv(s, c) && CoreInv(d) && Evolves(c, d, i)
    requires |t.peers| == |s.peers| && forall j :: 0 <= j < |s.peers| && j != i ==> t.peers[j] == s.peers[j]
    requires PeerOk(d, i, t.peers[i]) && CountOk(d, i, t.peers[i], t.votes)
    requires forall call :: call in t.votes ==>
      (call in s.votes && t.votes[call] == s.votes[call]) || FlightOk(d, call, t.votes[call])
    requires forall call :: call in t.votes ==> call in s.votes || call.candidate == i
    requires forall m :: m in t.net ==> m in s.net || MessageOk(d, m)
    ensures BaseInv(t, d)
  {
    forall j | 0 <= j < |t.peers| ensures PeerOk(d, j, t.peers[j]) && CountOk(d, j, t.peers[j], t.votes) {
      if j != i {
        assert PeerOk(c, j, s.peers[j]) && CountOk(c, j, s.peers[j], s.votes);
      }
    }
    forall call | call in t.votes ensures FlightOk(d, call, t.votes[call]) {
      if call in s.votes && t.votes[call] == s.votes[call] {
        FlightGrows(c, d, i, call, s.votes[call]);
      }
    }
    forall m | m in t.net ensures MessageOk(d, m) {
      if m in s.net {
        MessageGrows(c, d, m);
      }
    }
  }
}
