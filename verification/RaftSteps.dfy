/** Every step of the cluster keeps `BaseInv`, compaction included. */
module RaftSteps {
  import opened RaftTypes
  import opened RaftCore
  import opened RaftPeer
  import opened RaftCompaction
  import opened RaftSystem
  import opened RaftInvariant

  lemma TimeoutKeeps(s: System, c: Core, i: nat)
    requires BaseInv(s, c) && Shaped(s) && Enabled(s, Timeout(i))
    ensures BaseInv(Do(s, Timeout(i)), CoreStep(s, c, Timeout(i)))
    ensures Evolves(c, CoreStep(s, c, Timeout(i)), i)
  {
    hide CoreInv;
    var t, d := Do(s, Timeout(i)), Campaign(c, i);
    CampaignKeeps(c, i);
    assert PeerOk(c, i, s.peers[i]);
    var p := t.peers[i];
    var asked := Ballots(s, i, p);
    assert VotedFor(d, p.term, i, i);
    forall call | call in t.votes
      ensures (call in s.votes && t.votes[call] == s.votes[call]) || FlightOk(d, call, t.votes[call])
    {
      if call in asked {
        assert p.logs[|p.logs| - 1].term == c.nodes[i].log[|c.nodes[i].log| - 1].term;
      }
    }
    var own := VoteCall(i, p.term, i);
    assert own in s.votes ==> FlightOk(c, own, s.votes[own]);
    Frame(s, c, t, d, i);
  }

  /** The log a granted request was made from is at least as up to date as the voter's. */
  lemma GrantedIsUpToDate(c: Core, call: VoteCall, p: Peer, args: VoteArgs)
    requires CoreInv(c) && FlightOk(c, call, Asked(args)) && PeerOk(c, call.voter, p)
    requires CandidateUpToDate(p, args)
    ensures var b := c.ballots[Slot(call.term, call.candidate)].log;
            |b| > 0 && |c.nodes[call.voter].log| > 0 && UpToDate(b, c.nodes[call.voter].log)
  {
    var full := c.nodes[call.voter].log;
    assert p.logs[|p.logs| - 1].term == full[|full| - 1].term;
  }

  /** The effect of granting: either a new ballot, or the one already cast. */
  lemma GrantedKeeps(c: Core, call: VoteCall, p: Peer, args: VoteArgs)
    requires CoreInv(c) && FlightOk(c, call, Asked(args)) && PeerOk(c, call.voter, p)
    requires p.term == args.term && CandidateUpToDate(p, args)
    requires p.votedFor == -1 || p.votedFor == call.candidate
    ensures var d := if p.votedFor == -1 then Grant(c, call.voter, call.candidate) else c;
            && CoreInv(d) && Extends(c, d) && VotedFor(d, call.term, call.voter, call.candidate)
  {
    if p.votedFor == -1 {
      GrantedIsUpToDate(c, call, p, args);
      GrantKeeps(c, call.voter, call.candidate);
    } else {
      assert GoodBallot(c, Slot(p.term, call.voter));
    }
  }

  /** What a vote request does to its voter. */
  ghost predicate VoteHandled(c: Core, d: Core, call: VoteCall, p: Peer, args: VoteArgs)
    requires |p.logs| > 0
  {
    && CoreInv(d) && Evolves(c, d, call.voter)
    && PeerOk(d, call.voter, HandleVote(p, args).0)
    && FlightOk(d, call, Answered(HandleVote(p, args).1))
    && d.nodes[call.voter].counted == c.nodes[call.voter].counted
  }

  lemma VoteAtTerm(c: Core, call: VoteCall, p: Peer, args: VoteArgs)
    requires CoreInv(c) && FlightOk(c, call, Asked(args)) && PeerOk(c, call.voter, p) && args.term == p.term
    ensures VoteHandled(c, VoteCore(c, call.voter, call.candidate, p, args), call, p, args)
  {
    hide CoreInv;
    if HandleVote(p, args).1.granted {
      GrantedKeeps(c, call, p, args);
    }
  }

  /** A newer term is adopted first, and then the request is one of the voter's own term. */
  lemma VoteAdopts(c: Core, call: VoteCall, p: Peer, args: VoteArgs)
    requires CoreInv(c) && FlightOk(c, call, Asked(args)) && PeerOk(c, call.voter, p) && args.term > p.term
    ensures var e, q := Adopt(c, call.voter, args.term), BeFollower(p, args.term);
            && CoreInv(e) && Evolves(c, e, call.voter) && FlightOk(e, call, Asked(args)) && PeerOk(e, call.voter, q)
            && e.nodes[call.voter].counted == c.nodes[call.voter].counted
            && HandleVote(p, args) == HandleVote(q, args)
            && VoteCore(c, call.voter, call.candidate, p, args) == VoteCore(e, call.voter, call.candidate, q, args)
  {
    hide CoreInv;
    AdoptKeeps(c, call.voter, args.term);
    FlightGrows(c, Adopt(c, call.voter, args.term), call.voter, call, Asked(args));
  }

  lemma VoteCoreKeeps(c: Core, call: VoteCall, p: Peer, args: VoteArgs)
    requires CoreInv(c) && FlightOk(c, call, Asked(args)) && PeerOk(c, call.voter, p)
    ensures VoteHandled(c, VoteCore(c, call.voter, call.candidate, p, args), call, p, args)
  {
    hide CoreInv, Evolves, VoteCore, HandleVote;
    if args.term > p.term {
      var e, q := Adopt(c, call.voter, args.term), BeFollower(p, args.term);
      VoteAdopts(c, call, p, args);
      VoteAtTerm(e, call, q, args);
      EvolvesChain(c, e, VoteCore(c, call.voter, call.candidate, p, args), call.voter);
    } else if args.term == p.term {
      VoteAtTerm(c, call, p, args);
    } else {
      VoteRefused(c, call, p, args);
    }
  }

  lemma VoteRefused(c: Core, call: VoteCall, p: Peer, args: VoteArgs)
    requires CoreInv(c) && FlightOk(c, call, Asked(args)) && PeerOk(c, call.voter, p) && args.term < p.term
    ensures VoteHandled(c, VoteCore(c, call.voter, call.candidate, p, args), call, p, args)
  {
    hide CoreInv;
  }

  lemma DeliverVoteKeeps(s: System, c: Core, call: VoteCall)
    requires BaseInv(s, c) && Shaped(s) && Enabled(s, DeliverVote(call))
    ensures BaseInv(Do(s, DeliverVote(call)), CoreStep(s, c, DeliverVote(call)))
    ensures Evolves(c, CoreStep(s, c, DeliverVote(call)), call.voter)
  {
    hide CoreInv;
    var t, d := Do(s, DeliverVote(call)), CoreStep(s, c, DeliverVote(call));
    var v := call.voter;
    assert PeerOk(c, v, s.peers[v]) && CountOk(c, v, s.peers[v], s.votes);
    assert FlightOk(c, call, s.votes[call]);
    VoteCoreKeeps(c, call, s.peers[v], s.votes[call].args);
    Frame(s, c, t, d, v);
  }

  lemma VoteReplyCoreKeeps(c: Core, call: VoteCall, p: Peer, votes: map<VoteCall, Flight>)
    requires CoreInv(c) && PeerOk(c, call.candidate, p) && CountOk(c, call.candidate, p, votes)
    requires call in votes && votes[call].Answered? && FlightOk(c, call, votes[call])
    requires |c.nodes[call.candidate].log| > 0
    ensures var reply := votes[call].reply;
            var d := VoteReplyCore(c, call.candidate, call.voter, p, reply);
            var q := HandleVoteReply(p, reply);
            && CoreInv(d) && Evolves(c, d, call.candidate)
            && PeerOk(d, call.candidate, q) && CountOk(d, call.candidate, q, votes - {call})
  {
    hide CoreInv, Win, CountVote, BecomeLeader, FlightOk;
    var reply, i := votes[call].reply, call.candidate;
    if p.role == Candidate && reply.term > p.term {
      AdoptKeeps(c, i, reply.term);
    } else if p.role == Candidate && reply.term == p.term && reply.granted {
      VoteForMe(c, call, reply);
      GrantedReplyKeeps(c, call, p, votes);
    }
  }

  lemma VoteForMe(c: Core, call: VoteCall, reply: VoteReply)
    requires FlightOk(c, call, Answered(reply)) && reply.granted
    ensures call.voter < |c.nodes| && reply.term == call.term && VotedFor(c, call.term, call.voter, call.candidate)
  {
  }

  /** A vote for the running campaign is counted, and a majority makes the candidate leader. */
  lemma GrantedReplyKeeps(c: Core, call: VoteCall, p: Peer, votes: map<VoteCall, Flight>)
    requires CoreInv(c) && PeerOk(c, call.candidate, p) && CountOk(c, call.candidate, p, votes)
    requires p.role == Candidate && call in votes && call.term == p.term && call.voter < |c.nodes|
    requires VotedFor(c, call.term, call.voter, call.candidate) && |c.nodes[call.candidate].log| > 0
    ensures var d := CountVote(c, call.candidate, call.voter);
            var q := p.(voteCount := p.voteCount + 1);
            && |d.nodes[call.candidate].log| > 0
            && CoreInv(d) && Evolves(c, d, call.candidate)
            && PeerOk(d, call.candidate, q) && CountOk(d, call.candidate, q, votes - {call})
            && (q.voteCount > |p.nextIndex| / 2 ==>
                  var e := Win(d, call.candidate);
                  && CoreInv(e) && Evolves(c, e, call.candidate)
                  && PeerOk(e, call.candidate, BecomeLeader(q))
                  && CountOk(e, call.candidate, BecomeLeader(q), votes - {call}))
  {
    hide CoreInv;
    var i, v := call.candidate, call.voter;
    CountVoteKeeps(c, i, v);
    var d := CountVote(c, i, v);
    assert v !in c.nodes[i].counted;
    assert |d.nodes[i].counted| == p.voteCount + 1;
    if p.voteCount + 1 > |p.nextIndex| / 2 {
      WinKeeps(d, i);
    }
  }

  lemma TakeVoteReplyKeeps(s: System, c: Core, call: VoteCall)
    requires BaseInv(s, c) && Shaped(s) && Enabled(s, TakeVoteReply(call))
    ensures BaseInv(Do(s, TakeVoteReply(call)), CoreStep(s, c, TakeVoteReply(call)))
    ensures Evolves(c, CoreStep(s, c, TakeVoteReply(call)), call.candidate)
  {
    var t, d := Do(s, TakeVoteReply(call)), CoreStep(s, c, TakeVoteReply(call));
    var i := call.candidate;
    assert PeerOk(c, i, s.peers[i]) && CountOk(c, i, s.peers[i], s.votes);
    assert FlightOk(c, call, s.votes[call]);
    VoteReplyCoreKeeps(c, call, s.peers[i], s.votes);
    Frame(s, c, t, d, i);
  }

  lemma ClientStartKeeps(s: System, c: Core, i: nat, command: Command)
    requires BaseInv(s, c) && Shaped(s) && Enabled(s, ClientStart(i, command))
    ensures BaseInv(Do(s, ClientStart(i, command)), CoreStep(s, c, ClientStart(i, command)))
    ensures Evolves(c, CoreStep(s, c, ClientStart(i, command)), i)
  {
    hide CoreInv, FlightOk, MessageOk, CountOk;
    var t, d := Do(s, ClientStart(i, command)), CoreStep(s, c, ClientStart(i, command));
    var p := s.peers[i];
    assert PeerOk(c, i, p) && CountOk(c, i, p, s.votes);
    if p.role == Leader {
      var e := Entry(p.snapshotIndex + |p.logs|, p.term, command);
      AppendOwnKeeps(c, i, e);
      assert t.peers[i].logs == Compacted(d.nodes[i].log, p.snapshotIndex);
    }
    Frame(s, c, t, d, i);
  }

  lemma CompactedAt(full: seq<Entry>, s: nat, k: nat)
    requires s < |full| && k < |Compacted(full, s)|
    ensures s + k < |full| && Compacted(full, s)[k].term == full[s + k].term
    ensures Compacted(full, s)[k + 1..] == full[s + k + 1..] == full[s + k + 1..s + k + 1 + |full[s + k + 1..]|]
  {
  }

  /** What a leader sends is cut from its log. */
  lemma ProbeOk(c: Core, i: nat, p: Peer, to: nat)
    requires CoreInv(c) && PeerOk(c, i, p) && to < |c.nodes|
    ensures CheckConsistency(p, to).SendAppend? ==> MessageOk(c, AppendMsg(to, CheckConsistency(p, to).append))
    ensures CheckConsistency(p, to).SendSnapshot? ==> MessageOk(c, SnapshotMsg(to, CheckConsistency(p, to).snapshot))
  {
    hide CoreInv, Compacted;
    if p.role == Leader {
      LeaderBasics(c, i);
      CompactedAt(c.nodes[i].log, p.snapshotIndex, 0);
      var local := p.nextIndex[to] - 1 - p.snapshotIndex;
      if 0 <= local < |p.logs| {
        CompactedAt(c.nodes[i].log, p.snapshotIndex, local);
      }
    }
  }

  lemma CheckKeeps(s: System, c: Core, i: nat, to: nat)
    requires BaseInv(s, c) && Shaped(s) && Enabled(s, Check(i, to))
    ensures BaseInv(Do(s, Check(i, to)), CoreStep(s, c, Check(i, to)))
  {
    hide CoreInv, PeerOk, CountOk, FlightOk, MessageOk, CheckConsistency;
    assert PeerOk(c, i, s.peers[i]);
    ProbeOk(c, i, s.peers[i], to);
  }

  // ---------------------------------------------------------------- appends

  lemma {:induction false} MatchLenMeaning(logs: seq<Entry>, at: nat, entries: seq<Entry>)
    requires at <= |logs|
    ensures var m := MatchLen(logs, at, entries);
            && (forall j :: 0 <= j < m ==> logs[at + j].term == entries[j].term)
            && (m < |entries| && at + m < |logs| ==> logs[at + m].term != entries[m].term)
    decreases |entries|
  {
    if !(entries == [] || at == |logs| || logs[at].term != entries[0].term) {
      MatchLenMeaning(logs, at + 1, entries[1..]);
      var m := MatchLen(logs, at + 1, entries[1..]);
      forall j | 0 <= j < m + 1 ensures logs[at + j].term == entries[j].term {
        if j > 0 {
          assert logs[at + 1 + (j - 1)].term == entries[1..][j - 1].term;
        }
      }
    }
  }

  lemma MergeTail(full: seq<Entry>, l: seq<Entry>, at: nat, entries: seq<Entry>)
    requires at <= |full| && at + |entries| <= |l| && entries == l[at..at + |entries|]
    requires Agree(full, l, at + MatchLen(full, at, entries))
    ensures var k := at + |entries|;
            Merge(full, at, entries) == if Agree(full, l, k) then full else l[..k]
  {
    hide MatchLen;
    var m := MatchLen(full, at, entries);
    MatchLenMeaning(full, at, entries);
    if m < |entries| {
      assert entries[m] == l[at + m];
      assert !Agree(full, l, at + |entries|);
      SliceJoin(full, l, at, m, entries);
    }
  }

  lemma SliceJoin(full: seq<Entry>, l: seq<Entry>, at: nat, m: nat, entries: seq<Entry>)
    requires m <= |entries| && at + |entries| <= |l| && entries == l[at..at + |entries|] && Agree(full, l, at + m)
    ensures full[..at + m] + entries[m..] == l[..at + |entries|]
  {
    assert full[..at + m] == l[..at + m];
    assert entries[m..] == l[at + m..at + |entries|];
  }

  lemma MatchedTerm(full: seq<Entry>, l: seq<Entry>, at: nat, entries: seq<Entry>)
    requires 0 < at <= |full| && at + |entries| <= |l| && entries == l[at..at + |entries|]
    requires full[at - 1].term == l[at - 1].term
    ensures var last := at + MatchLen(full, at, entries) - 1;
            full[last].term == l[last].term
  {
    var m := MatchLen(full, at, entries);
    if m > 0 {
      MatchLenMeaning(full, at, entries);
      assert full[at + (m - 1)].term == entries[m - 1].term;
    }
  }

  /** Merging a piece of the leader's log is taking over the leader's log up to the end of the piece. */
  lemma MergeIsAccept(tl: map<nat, seq<Entry>>, full: seq<Entry>, args: AppendArgs)
    requires Piece(tl, args) && Owned(tl, full) && Owned(tl, tl[args.term])
    requires args.prevIndex < |full| && full[args.prevIndex].term == args.prevTerm
    ensures var l := tl[args.term];
            var k := args.prevIndex + |args.entries|;
            Merge(full, args.prevIndex + 1, args.entries) == if Agree(full, l, k + 1) then full else l[..k + 1]
  {
    hide MatchLen, Merge;
    var l, at := tl[args.term], args.prevIndex + 1;
    MatchedTerm(full, l, at, args.entries);
    LogMatching(tl, full, l, at + MatchLen(full, at, args.entries) - 1);
    MergeTail(full, l, at, args.entries);
  }

  lemma HeedKeeps(c: Core, i: nat, p: Peer, term: nat)
    requires CoreInv(c) && PeerOk(c, i, p) && p.term <= term
    ensures var d := HeedCore(c, i, term);
            && CoreInv(d) && Evolves(c, d, i) && PeerOk(d, i, Heed(p, term))
            && d.termLog == c.termLog && d.nodes[i].log == c.nodes[i].log
            && d.nodes[i].term == term && d.nodes[i].role == Follower
  {
    if p.term < term {
      AdoptKeeps(c, i, term);
    } else {
      StepDownKeeps(c, i);
    }
  }

  lemma AppendFields(p: Peer, args: AppendArgs, n: nat)
    requires WellFormed(p, n) && args.term >= p.term
    ensures var q := HandleAppend(p, args).0;
            && WellFormed(q, n) && q == Heed(p, args.term).(logs := q.logs, commitIndex := q.commitIndex)
            && (!HandleAppend(p, args).1.success ==> q == Heed(p, args.term))
  {
  }

  /** `full` after taking over the first `k + 1` entries of `l`. */
  function Taken(full: seq<Entry>, l: seq<Entry>, k: nat): seq<Entry>
    requires k < |l|
  {
    if Agree(full, l, k + 1) then full else l[..k + 1]
  }

  lemma TakeOver(e: Core, i: nat, k: nat, p: Peer)
    requires CoreInv(e) && i < |e.nodes| && e.nodes[i].role == Follower
    requires e.nodes[i].term in e.termLog && k < |e.termLog[e.nodes[i].term]|
    requires WellFormed(p, |e.nodes|) && p.me == i && p.role == Follower
    requires p.term == e.nodes[i].term && p.votedFor == e.nodes[i].votedFor
    requires Represents(p, Taken(e.nodes[i].log, e.termLog[e.nodes[i].term], k))
    ensures var d := Accept(e, i, k);
            CoreInv(d) && Evolves(e, d, i) && PeerOk(d, i, p) && d.termLog == e.termLog
  {
    AcceptKeeps(e, i, k);
  }

  /** Server `i` moved to state `p`, and no leader's log changed. */
  ghost predicate Follows(c: Core, d: Core, i: nat, p: Peer) {
    CoreInv(d) && Evolves(c, d, i) && PeerOk(d, i, p) && d.termLog == c.termLog
  }

  lemma MergeTakes(c: Core, i: nat, args: AppendArgs)
    requires InvLogs(c) && i < |c.nodes| && Piece(c.termLog, args)
    requires args.prevIndex < |c.nodes[i].log| && c.nodes[i].log[args.prevIndex].term == args.prevTerm
    ensures Merge(c.nodes[i].log, args.prevIndex + 1, args.entries)
         == Taken(c.nodes[i].log, c.termLog[args.term], args.prevIndex + |args.entries|)
  {
    assert GoodNode(c, i) && GoodTermLog(c, args.term);
    MergeIsAccept(c.termLog, c.nodes[i].log, args);
  }

  /** Hearing from the leader of `term` and taking over its log up to `k`. */
  lemma FollowLeader(c: Core, i: nat, p: Peer, q: Peer, term: nat, k: nat)
    requires CoreInv(c) && PeerOk(c, i, p) && p.term <= term
    requires term in c.termLog && k < |c.termLog[term]|
    requires WellFormed(q, |c.nodes|)
    requires q == Heed(p, term).(logs := q.logs, commitIndex := q.commitIndex, snapshotIndex := q.snapshotIndex)
    requires Represents(q, Taken(c.nodes[i].log, c.termLog[term], k))
    ensures var d := Accept(HeedCore(c, i, term), i, k);
            Follows(c, d, i, q)
  {
    var e := HeedCore(c, i, term);
    HeedKeeps(c, i, p, term);
    TakeOver(e, i, k, q);
    EvolvesChain(c, e, Accept(e, i, k), i);
  }

  lemma EvolvesChain(c: Core, e: Core, d: Core, i: nat)
    requires Evolves(c, e, i) && Evolves(e, d, i)
    ensures Evolves(c, d, i)
  {
    forall t | t in c.termLog ensures t in d.termLog && Agree(c.termLog[t], d.termLog[t], |c.termLog[t]|) {
      assert Agree(c.termLog[t], e.termLog[t], |c.termLog[t]|) && Agree(e.termLog[t], d.termLog[t], |e.termLog[t]|);
    }
  }

  lemma AppendCoreKeeps(c: Core, i: nat, p: Peer, args: AppendArgs)
    requires CoreInv(c) && PeerOk(c, i, p)
    requires args.entries == [] || Piece(c.termLog, args)
    ensures Follows(c, AppendCore(c, i, p, args), i, HandleAppend(p, args).0)
  {
    hide CoreInv, Merge, RunStart, Accept;
    if args.term >= p.term {
      AppendFields(p, args, |c.nodes|);
      var success := HandleAppend(p, args).1.success;
      if success {
        AppendSucceeds(p, c.nodes[i].log, args);
      }
      AppendOutcome(c, i, p, HandleAppend(p, args).0, success, args);
    }
  }

  /** The effect of an append that is not stale, from what `HandleAppend` is known to do. */
  lemma AppendOutcome(c: Core, i: nat, p: Peer, q: Peer, success: bool, args: AppendArgs)
    requires CoreInv(c) && PeerOk(c, i, p) && args.term >= p.term && WellFormed(q, |c.nodes|)
    requires args.entries == [] || Piece(c.termLog, args)
    requires q == Heed(p, args.term).(logs := q.logs, commitIndex := q.commitIndex)
    requires !success ==> q == Heed(p, args.term)
    requires success ==>
      && args.prevIndex < |c.nodes[i].log| && c.nodes[i].log[args.prevIndex].term == args.prevTerm
      && Represents(q, Merge(c.nodes[i].log, args.prevIndex + 1, args.entries))
    ensures var e := HeedCore(c, i, args.term);
            var d := if success && Piece(c.termLog, args) then Accept(e, i, args.prevIndex + |args.entries|) else e;
            Follows(c, d, i, q)
  {
    hide InvVotes, InvLeaders, InvAcks, Evolves, Represents, Accept;
    if success && Piece(c.termLog, args) {
      MergeTakes(c, i, args);
      FollowLeader(c, i, p, q, args.term, args.prevIndex + |args.entries|);
    } else {
      HeedKeeps(c, i, p, args.term);
      if success {
        assert MatchLen(c.nodes[i].log, args.prevIndex + 1, []) == 0;
      }
    }
  }

  lemma DeliverAppendKeeps(s: System, c: Core, m: Message)
    requires BaseInv(s, c) && Shaped(s) && Enabled(s, DeliverAppend(m))
    ensures BaseInv(Do(s, DeliverAppend(m)), CoreStep(s, c, DeliverAppend(m)))
    ensures Evolves(c, CoreStep(s, c, DeliverAppend(m)), m.to)
  {
    hide CoreInv;
    var t, d := Do(s, DeliverAppend(m)), CoreStep(s, c, DeliverAppend(m));
    var i := m.to;
    assert PeerOk(c, i, s.peers[i]) && CountOk(c, i, s.peers[i], s.votes);
    assert MessageOk(c, m);
    AppendCoreKeeps(c, i, s.peers[i], m.append);
    Frame(s, c, t, d, i);
  }

  lemma DeposeKeeps(c: Core, i: nat, p: Peer, term: nat)
    requires CoreInv(c) && PeerOk(c, i, p)
    ensures var d := DeposeCore(c, i, p, term); CoreInv(d) && Evolves(c, d, i)
  {
    if p.role == Leader && term > p.term {
      AdoptKeeps(c, i, term);
    }
  }

  lemma TakeAppendReplyKeeps(s: System, c: Core, m: Message)
    requires BaseInv(s, c) && Shaped(s) && Enabled(s, TakeAppendReply(m))
    ensures BaseInv(Do(s, TakeAppendReply(m)), CoreStep(s, c, TakeAppendReply(m)))
    ensures Evolves(c, CoreStep(s, c, TakeAppendReply(m)), m.append.leader)
  {
    hide CoreInv, FlightOk, MessageOk, CountOk;
    var t, d := Do(s, TakeAppendReply(m)), CoreStep(s, c, TakeAppendReply(m));
    var i := m.append.leader;
    assert PeerOk(c, i, s.peers[i]) && CountOk(c, i, s.peers[i], s.votes);
    DeposeKeeps(c, i, s.peers[i], m.reply.term);
    Frame(s, c, t, d, i);
  }

  // ---------------------------------------------------------------- snapshots

  lemma SnapshotCoreKeeps(c: Core, i: nat, p: Peer, args: SnapshotArgs)
    requires CoreInv(c) && PeerOk(c, i, p)
    requires args.term in c.termLog && args.lastIndex < |c.termLog[args.term]|
    requires c.termLog[args.term][args.lastIndex].term == args.lastTerm
    ensures var d := SnapshotCore(c, i, p, args);
            Follows(c, d, i, HandleSnapshot(p, args).0)
  {
    hide InvVotes, InvLeaders, InvAcks, Accept;
    if args.term >= p.term {
      if args.lastIndex > p.snapshotIndex && args.lastIndex > p.commitIndex {
        assert GoodNode(c, i) && GoodTermLog(c, args.term);
        SnapshotLogs(c.termLog, c.nodes[i].log, p, args);
        FollowLeader(c, i, p, HandleSnapshot(p, args).0, args.term, args.lastIndex);
      } else {
        HeedKeeps(c, i, p, args.term);
      }
    }
  }

  lemma SnapshotLogs(tl: map<nat, seq<Entry>>, full: seq<Entry>, p: Peer, args: SnapshotArgs)
    requires Represents(p, full) && Owned(tl, full) && args.term >= p.term
    requires args.term in tl && args.lastIndex < |tl[args.term]| && Owned(tl, tl[args.term])
    requires tl[args.term][args.lastIndex].term == args.lastTerm
    requires args.lastIndex > p.snapshotIndex && args.lastIndex > p.commitIndex
    ensures Represents(HandleSnapshot(p, args).0, Taken(full, tl[args.term], args.lastIndex))
  {
    var l := tl[args.term];
    SnapshotRefines(p, full, l, args);
    if args.lastIndex < |full| && full[args.lastIndex].term == args.lastTerm {
      LogMatching(tl, full, l, args.lastIndex);
    }
  }

  lemma DeliverSnapshotKeeps(s: System, c: Core, m: Message)
    requires BaseInv(s, c) && Shaped(s) && Enabled(s, DeliverSnapshot(m))
    ensures BaseInv(Do(s, DeliverSnapshot(m)), CoreStep(s, c, DeliverSnapshot(m)))
    ensures Evolves(c, CoreStep(s, c, DeliverSnapshot(m)), m.to)
  {
    hide CoreInv;
    var t, d := Do(s, DeliverSnapshot(m)), CoreStep(s, c, DeliverSnapshot(m));
    var i := m.to;
    assert PeerOk(c, i, s.peers[i]) && CountOk(c, i, s.peers[i], s.votes);
    assert MessageOk(c, m);
    SnapshotCoreKeeps(c, i, s.peers[i], m.snapshot);
    Frame(s, c, t, d, i);
  }

  lemma TakeSnapshotReplyKeeps(s: System, c: Core, m: Message)
    requires BaseInv(s, c) && Shaped(s) && Enabled(s, TakeSnapshotReply(m))
    ensures BaseInv(Do(s, TakeSnapshotReply(m)), CoreStep(s, c, TakeSnapshotReply(m)))
    ensures Evolves(c, CoreStep(s, c, TakeSnapshotReply(m)), m.snapshot.leader)
  {
    hide CoreInv, FlightOk, MessageOk, CountOk;
    var t, d := Do(s, TakeSnapshotReply(m)), CoreStep(s, c, TakeSnapshotReply(m));
    var i := m.snapshot.leader;
    assert PeerOk(c, i, s.peers[i]) && CountOk(c, i, s.peers[i], s.votes);
    DeposeKeeps(c, i, s.peers[i], m.term);
    Frame(s, c, t, d, i);
  }

  lemma CompactLogKeeps(s: System, c: Core, i: nat, index: nat)
    requires BaseInv(s, c) && Shaped(s) && Enabled(s, CompactLog(i, index))
    ensures BaseInv(Do(s, CompactLog(i, index)), CoreStep(s, c, CompactLog(i, index)))
    ensures Evolves(c, CoreStep(s, c, CompactLog(i, index)), i)
  {
    hide CoreInv;
    assert PeerOk(c, i, s.peers[i]) && CountOk(c, i, s.peers[i], s.votes);
    CompactRefines(s.peers[i], c.nodes[i].log, index);
    Frame(s, c, Do(s, CompactLog(i, index)), c, i);
  }

  lemma ApplyLogKeeps(s: System, c: Core, i: nat)
    requires BaseInv(s, c) && Shaped(s) && Enabled(s, ApplyLog(i))
    ensures BaseInv(Do(s, ApplyLog(i)), CoreStep(s, c, ApplyLog(i)))
    ensures Evolves(c, CoreStep(s, c, ApplyLog(i)), i)
  {
    hide CoreInv;
    assert PeerOk(c, i, s.peers[i]) && CountOk(c, i, s.peers[i], s.votes);
    Frame(s, c, Do(s, ApplyLog(i)), c, i);
  }

  lemma CrashKeeps(s: System, c: Core, i: nat)
    requires BaseInv(s, c) && Shaped(s) && Enabled(s, Crash(i))
    ensures BaseInv(Do(s, Crash(i)), CoreStep(s, c, Crash(i)))
    ensures Evolves(c, CoreStep(s, c, Crash(i)), i)
  {
    hide CoreInv;
    assert PeerOk(c, i, s.peers[i]) && CountOk(c, i, s.peers[i], s.votes);
    StepDownKeeps(c, i);
    Frame(s, c, Do(s, Crash(i)), CoreStep(s, c, Crash(i)), i);
  }

  /** The server whose critical section a step is. */
  function Actor(step: Step): nat {
    match step
    case Timeout(i) => i
    case DeliverVote(call) => call.voter
    case TakeVoteReply(call) => call.candidate
    case ClientStart(i, _) => i
    case Check(i, _) => i
    case DeliverAppend(m) => if m.AppendMsg? then m.to else 0
    case TakeAppendReply(m) => if m.AppendReplyMsg? then m.append.leader else 0
    case DeliverSnapshot(m) => if m.SnapshotMsg? then m.to else 0
    case TakeSnapshotReply(m) => if m.SnapshotReplyMsg? then m.snapshot.leader else 0
    case CompactLog(i, _) => i
    case ApplyLog(i) => i
    case Crash(i) => i
  }

  lemma StepKeeps(s: System, c: Core, step: Step)
    requires BaseInv(s, c) && Shaped(s) && Enabled(s, step)
    ensures BaseInv(Do(s, step), CoreStep(s, c, step))
    ensures Evolves(c, CoreStep(s, c, step), Actor(step))
  {
    match step
    case Timeout(i) => TimeoutKeeps(s, c, i);
    case DeliverVote(call) => DeliverVoteKeeps(s, c, call);
    case TakeVoteReply(call) => TakeVoteReplyKeeps(s, c, call);
    case ClientStart(i, command) => ClientStartKeeps(s, c, i, command);
    case Check(i, to) => CheckKeeps(s, c, i, to);
    case DeliverAppend(m) => DeliverAppendKeeps(s, c, m);
    case TakeAppendReply(m) => TakeAppendReplyKeeps(s, c, m);
    case DeliverSnapshot(m) => DeliverSnapshotKeeps(s, c, m);
    case TakeSnapshotReply(m) => TakeSnapshotReplyKeeps(s, c, m);
    case CompactLog(i, index) => CompactLogKeeps(s, c, i, index);
    case ApplyLog(i) => ApplyLogKeeps(s, c, i);
    case Crash(i) => CrashKeeps(s, c, i);
  }

  // ---------------------------------------------------------------- runs

  function InitCore(n: nat): Core {
    Core(seq(n, _ => Node(0, -1, Follower, [DUMMY], {})), map[0 := [DUMMY]], map[], map[], map[], {})
  }

  lemma InitKeeps(n: nat)
    ensures BaseInv(Init(n), InitCore(n))
  {
    var c := InitCore(n);
    assert GoodTermLog(c, 0);
    forall i | 0 <= i < n ensures PeerOk(c, i, Init(n).peers[i]) && GoodNode(c, i) {
      assert [DUMMY] == Compacted([DUMMY], 0);
    }
  }
}
