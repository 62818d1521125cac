/**
 What each handler decides, and exactly when, in terms of the whole logs behind
 the peers.
 */
module RaftRules {
  import opened RaftTypes
  import opened RaftCore
  import opened RaftPeer
  import opened RaftCompaction
  import opened RaftSystem
  import opened RaftInvariant
  import opened RaftTheorems

  // ---------------------------------------------------------------- votes

  /** The voter has no vote out in the term of the request, or has given it to this candidate. */
  predicate Free(p: Peer, args: VoteArgs) {
    args.term > p.term || p.votedFor == -1 || p.votedFor == args.candidate
  }

  /**
   A request of the voter's term or a later one is granted exactly if the voter
   is free and the log the candidate campaigned with is up to date with the
   voter's whole log; an older request is refused and told the voter's term.
   */
  lemma VoteGrantedIff(c: Core, call: VoteCall, p: Peer, args: VoteArgs)
    requires FlightOk(c, call, Asked(args)) && PeerOk(c, call.voter, p)
    ensures var ballot, full := c.ballots[Slot(call.term, call.candidate)].log, c.nodes[call.voter].log;
            var (q, reply) := HandleVote(p, args);
            && |ballot| > 0 && |full| > 0 && reply.term == Max(args.term, p.term)
            && (reply.granted <==> args.term >= p.term && Free(p, args) && UpToDate(ballot, full))
            && q == (if args.term > p.term then BeFollower(p, args.term) else p).(votedFor := q.votedFor)
            && q.votedFor == if reply.granted then call.candidate else if args.term > p.term then -1 else p.votedFor
  {
    var full := c.nodes[call.voter].log;
    assert p.logs[|p.logs| - 1].term == full[|full| - 1].term;
  }

  /** The same for every vote request in flight in every run. */
  lemma VotesGrantedIff(n: nat, steps: seq<Step>, call: VoteCall)
    requires IsRun(n, steps) && call in After(n, steps).votes && After(n, steps).votes[call].Asked?
    ensures var c, args := CoreAfter(n, steps), After(n, steps).votes[call].args;
            && call.voter < n && Slot(call.term, call.candidate) in c.ballots && call.voter < |c.nodes|
            && var p, ballot := PeerAt(n, steps, |steps|, call.voter), c.ballots[Slot(call.term, call.candidate)].log;
               && |ballot| > 0 && |c.nodes[call.voter].log| > 0
               && (HandleVote(p, args).1.granted <==>
                     args.term >= p.term && Free(p, args) && UpToDate(ballot, c.nodes[call.voter].log))
  {
    hide IsRun, CoreInv, HandleVote, UpToDate;
    RunSize(n, steps);
    assert steps[..|steps|] == steps;
    var s, c := After(n, steps), CoreAfter(n, steps);
    assert FlightOk(c, call, s.votes[call]) && PeerOk(c, call.voter, s.peers[call.voter]);
    VoteGrantedIff(c, call, s.peers[call.voter], s.votes[call].args);
  }

  /** A server that campaigns asks every other server, with the end of its whole log. */
  lemma CampaignAsksAll(s: System, c: Core, i: nat, v: nat)
    requires BaseInv(s, c) && Shaped(s) && Enabled(s, Timeout(i)) && v < |s.peers| && v != i
    ensures var t, full := Do(s, Timeout(i)), c.nodes[i].log;
            && |full| > 0 && t.peers[i].term == s.peers[i].term + 1
            && VoteCall(i, t.peers[i].term, v) in t.votes
            && t.votes[VoteCall(i, t.peers[i].term, v)]
               == Asked(VoteArgs(t.peers[i].term, i, |full| - 1, full[|full| - 1].term))
  {
    hide CoreInv;
    assert PeerOk(c, i, s.peers[i]);
    var p, full := s.peers[i], c.nodes[i].log;
    assert p.logs[|p.logs| - 1].term == full[|full| - 1].term;
  }

  /**
   A granted vote of the candidate's term is counted, and the candidate becomes
   leader exactly with more than half of the servers. It then supposes that every
   follower has its whole log, and knows it of none but itself.
   */
  lemma CountRule(p: Peer, full: seq<Entry>, n: nat)
    requires Represents(p, full) && WellFormed(p, n) && p.role == Candidate
    ensures var q := HandleVoteReply(p, VoteReply(p.term, true));
            && q == p.(voteCount := p.voteCount + 1, role := q.role, nextIndex := q.nextIndex,
                matchIndex := q.matchIndex)
            && q.role == (if 2 * (p.voteCount + 1) > n then Leader else Candidate)
            && (q.role == Candidate ==> q.nextIndex == p.nextIndex && q.matchIndex == p.matchIndex)
            && (q.role == Leader ==>
                  && |q.nextIndex| == n == |q.matchIndex|
                  && forall j :: 0 <= j < n ==>
                       q.nextIndex[j] == |full| && q.matchIndex[j] == if j == p.me then |full| - 1 else 0)
  {
  }

  /** The network loses nothing of its own accord, so that requests and their replies may be delivered again. */
  lemma NothingForgotten(s: System, step: Step)
    requires Shaped(s) && Enabled(s, step)
    ensures s.net <= Do(s, step).net && s.applied <= Do(s, step).applied
  {
  }

  // ---------------------------------------------------------------- probes

  /**
   A leader always sends: its snapshot exactly if that covers the next index, and
   otherwise its log from that index on.
   */
  lemma ProbeRule(p: Peer, full: seq<Entry>, to: nat)
    requires Represents(p, full) && to < |p.nextIndex| && p.nextIndex[to] >= 1
    ensures var probe, prev := CheckConsistency(p, to), p.nextIndex[to] - 1;
            && (probe.Silent? <==> p.role != Leader)
            && (p.role == Leader ==> (probe.SendSnapshot? <==> p.nextIndex[to] <= p.snapshotIndex))
            && (probe.SendSnapshot? ==>
                  probe.snapshot == SnapshotArgs(p.term, p.me, p.snapshotIndex, full[p.snapshotIndex].term))
            && (probe.SendAppend? && prev < |full| ==>
                  probe.append == AppendArgs(p.term, p.me, prev, full[prev].term, full[prev + 1..], p.commitIndex))
            && (probe.SendAppend? && prev >= |full| ==>
                  probe.append == AppendArgs(p.term, p.me, prev, full[|full| - 1].term, [], p.commitIndex))
  {
    var prev := p.nextIndex[to] - 1;
    var local := Min(prev - p.snapshotIndex, |p.logs| - 1);
    if local >= 0 {
      assert p.logs[local + 1..] == full[p.snapshotIndex + local + 1..];
      assert p.logs[local].term == full[p.snapshotIndex + local].term;
    }
  }

  /** All entries from `k` to `prev` have one term, and `k` is the snapshot or follows an entry of another term. */
  predicate RunFromTo(full: seq<Entry>, s: nat, k: nat, prev: nat)
    requires prev < |full|
  {
    && s <= k <= prev && (forall j :: k <= j <= prev ==> full[j].term == full[prev].term)
    && (k == s || full[k - 1].term != full[prev].term)
  }

  lemma {:induction false} RunStartIs(logs: seq<Entry>, i: nat)
    requires i < |logs|
    ensures RunFromTo(logs, 0, RunStart(logs, i), i)
    decreases i
  {
    if i > 0 && logs[i - 1].term == logs[i].term {
      RunStartIs(logs, i - 1);
    }
  }

  lemma RunFromWhole(p: Peer, full: seq<Entry>, k: nat, i: nat)
    requires Represents(p, full) && i < |p.logs| && RunFromTo(p.logs, 0, k, i)
    ensures p.snapshotIndex + i < |full| && RunFromTo(full, p.snapshotIndex, p.snapshotIndex + k, p.snapshotIndex + i)
  {
    var s := p.snapshotIndex;
    assert forall j :: 0 <= j < |p.logs| ==> p.logs[j].term == full[s + j].term;
    forall j | s + k <= j <= s + i ensures full[j].term == full[s + i].term {
      assert p.logs[j - s].term == p.logs[i].term;
    }
    if k > 0 {
      assert p.logs[k - 1].term == full[s + k - 1].term;
    }
  }

  /**
   A request of the follower's term or a later one succeeds exactly if the
   follower's whole log, from its snapshot on, has the entry it starts from. A
   refusal names the end of the log, or the start of the run of terms in the way.
   */
  lemma AnswerRule(p: Peer, full: seq<Entry>, args: AppendArgs)
    requires Represents(p, full)
    ensures var reply, prev := HandleAppend(p, args).1, args.prevIndex;
            && (args.term < p.term ==> reply == AppendReply(p.term, false, 0) && HandleAppend(p, args).0 == p)
            && (args.term >= p.term ==>
                  && reply.term == args.term
                  && (reply.success <==>
                        p.snapshotIndex <= prev < |full| && full[prev].term == args.prevTerm)
                  && (!reply.success ==>
                        && HandleAppend(p, args).0 == Heed(p, args.term)
                        && if p.snapshotIndex <= prev < |full|
                           then RunFromTo(full, p.snapshotIndex, reply.conflictIndex, prev)
                           else reply.conflictIndex == |full|))
  {
    hide RunStart, Merge;
    var local := args.prevIndex - p.snapshotIndex;
    if args.term >= p.term && 0 <= local < |p.logs| {
      assert p.logs[local].term == full[args.prevIndex].term;
      RunStartIs(p.logs, local);
      RunFromWhole(p, full, RunStart(p.logs, local), local);
    }
  }

  /** What an accepted request leaves behind, apart from the log: see `MergeIsAccept` for that. */
  lemma AcceptRule(p: Peer, full: seq<Entry>, args: AppendArgs)
    requires Represents(p, full) && HandleAppend(p, args).1.success
    ensures var q, full' := HandleAppend(p, args).0, Merge(full, args.prevIndex + 1, args.entries);
            && args.term >= p.term && args.prevIndex < |full| && Represents(q, full')
            && q == Heed(p, args.term).(
                      logs := q.logs,
                      commitIndex := if args.leaderCommit > p.commitIndex then Min(args.leaderCommit, |full'| - 1)
                                     else p.commitIndex)
  {
    hide Merge, RunStart;
    AppendSucceeds(p, full, args);
  }

  // ---------------------------------------------------------------- replies

  /** What a leader does with a reply of its own term. */
  lemma ReplyRule(p: Peer, full: seq<Entry>, from: nat, args: AppendArgs, reply: AppendReply)
    requires Represents(p, full) && from < |p.nextIndex| == |p.matchIndex| && p.role == Leader && reply.term == p.term
    ensures var r, m := HandleAppendReply(p, from, args, reply), args.prevIndex + |args.entries|;
            && (!reply.success ==> r == Some(p.(nextIndex := p.nextIndex[from := Max(1, reply.conflictIndex)])))
            && (reply.success && m <= p.matchIndex[from] ==> r == Some(p))
            && (reply.success && m > p.matchIndex[from] ==>
                  && (r.None? <==> m > p.commitIndex && !(p.snapshotIndex <= m < |full|))
                  && (r.Some? ==>
                        && r.value == p.(nextIndex := p.nextIndex[from := m + 1],
                                         matchIndex := p.matchIndex[from := m], commitIndex := r.value.commitIndex)
                        && (r.value.commitIndex == m || r.value.commitIndex == p.commitIndex)
                        && (r.value.commitIndex == m != p.commitIndex <==>
                              && m > p.commitIndex && full[m].term == p.term
                              && Majority(Matched(r.value.matchIndex, m), |p.nextIndex|))))
  {
    var m := args.prevIndex + |args.entries|;
    var local := m - p.snapshotIndex;
    if 0 <= local < |p.logs| {
      assert p.logs[local].term == full[m].term;
    }
  }

  /** A reply that is not of a leader's own term deposes it if it is newer, and is ignored if it is older. */
  lemma OtherReplyRule(p: Peer, from: nat, args: AppendArgs, reply: AppendReply)
    requires from < |p.nextIndex| == |p.matchIndex| && (p.role != Leader || reply.term != p.term)
    ensures HandleAppendReply(p, from, args, reply)
            == Some(if p.role == Leader && reply.term > p.term then BeFollower(p, reply.term) else p)
  {
  }

  // ---------------------------------------------------------------- compaction

  /** Compaction happens for every index of the log past the snapshot, and shortens the log by what it covers. */
  lemma CompactRule(p: Peer, full: seq<Entry>, index: nat)
    requires Represents(p, full)
    ensures var q := Compact(p, index);
            && (p.snapshotIndex < index <= p.Last() ==>
                  && q == p.(snapshotIndex := index, logs := q.logs) && Represents(q, full)
                  && |q.logs| == p.Last() - index + 1)
            && (!(p.snapshotIndex < index <= p.Last()) ==> q == p)
  {
    CompactRefines(p, full, index);
  }

  /**
   A snapshot of the follower's term or a later one is installed exactly if it
   is ahead of the follower's own and of what the follower knows to be committed.
   */
  lemma InstallRule(p: Peer, full: seq<Entry>, leader: seq<Entry>, args: SnapshotArgs)
    requires Represents(p, full) && args.lastIndex < |leader| && leader[args.lastIndex].term == args.lastTerm
    ensures var (q, term) := HandleSnapshot(p, args);
            var ahead := args.lastIndex > p.snapshotIndex && args.lastIndex > p.commitIndex;
            && term == Max(args.term, p.term)
            && (args.term < p.term ==> q == p)
            && (args.term >= p.term && !ahead ==> q == Heed(p, args.term))
            && (args.term >= p.term && ahead ==>
                  && q == Heed(p, args.term).(snapshotIndex := args.lastIndex, logs := q.logs)
                  && Represents(q, if args.lastIndex < |full| && full[args.lastIndex].term == args.lastTerm then full
                                   else leader[..args.lastIndex + 1]))
  {
    if args.term >= p.term && args.lastIndex > p.snapshotIndex && args.lastIndex > p.commitIndex {
      SnapshotRefines(p, full, leader, args);
    }
  }

  /** After its snapshot has been answered in its own term, a leader goes on right behind it. */
  lemma SnapshotReplyRule(p: Peer, from: nat, args: SnapshotArgs, term: nat)
    requires from < |p.nextIndex| == |p.matchIndex|
    ensures var q := HandleSnapshotReply(p, from, args, term);
            && (p.role != Leader || term < p.term ==> q == p)
            && (p.role == Leader && term > p.term ==> q == BeFollower(p, term))
            && (p.role == Leader && term == p.term ==>
                  && q.nextIndex == p.nextIndex[from := Max(p.nextIndex[from], args.lastIndex + 1)]
                  && q == p.(nextIndex := q.nextIndex, matchIndex := q.matchIndex)
                  && q.matchIndex == if args.lastIndex >= p.nextIndex[from] then p.matchIndex[from := args.lastIndex]
                                     else p.matchIndex)
  {
    assert p.nextIndex[from := p.nextIndex[from]] == p.nextIndex;
  }

  // ---------------------------------------------------------------- applying

  /** What has been handed to the service, or put into a snapshot for it. */
  function Covered(p: Peer): nat { Max(p.lastApplied, p.snapshotIndex) }

  /** One pass hands out exactly what is committed and not covered yet, in order, and then covers it. */
  lemma ApplyRule(p: Peer, full: seq<Entry>)
    requires Represents(p, full) && p.commitIndex < |full|
    ensures Apply(p).Some?
    ensures var (q, msgs) := Apply(p).value;
            && |msgs| == Max(0, p.commitIndex - Covered(p))
            && (forall k :: 0 <= k < |msgs| ==>
                  msgs[k] == ApplyMsg(Covered(p) + 1 + k, full[Covered(p) + 1 + k].command))
            && q == p.(lastApplied := q.lastApplied) && Covered(q) == Max(Covered(p), p.commitIndex)
            && q.lastApplied == if msgs == [] then p.lastApplied else p.commitIndex
  {
  }
}
