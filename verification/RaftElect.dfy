/**
 From every state that a cluster without compaction can reach, some server can
 become leader of a term that nobody is beyond.
 */
module RaftElect {
  import opened RaftTypes
  import opened RaftPeer
  import opened RaftCompaction
  import opened RaftSystem
  import opened RaftTheorems
  import opened RaftCommit
  import opened RaftRules
  import opened RaftRuns
  import opened RaftCatchUp

  /** Server `j` after the run. */
  ghost function Now(n: nat, steps: seq<Step>, j: nat): Peer
    requires IsRun(n, steps) && j < n
  {
    PeerAt(n, steps, |steps|, j)
  }

  lemma NowIs(n: nat, steps: seq<Step>)
    requires IsRun(n, steps)
    ensures var s := After(n, steps);
            && Shaped(s) && Formed(s.peers) && |s.peers| == n
            && forall j :: 0 <= j < n ==> Now(n, steps, j) == s.peers[j]
  {
    hide IsRun;
    RunShaped(n, steps);
    assert steps[..|steps|] == steps;
  }

  /** The peers after the run. */
  ghost predicate PeersAre(n: nat, steps: seq<Step>, peers: seq<Peer>)
    requires IsRun(n, steps)
  {
    |peers| == n && forall j :: 0 <= j < n ==> Now(n, steps, j) == peers[j]
  }

  ghost predicate Plain(n: nat, steps: seq<Step>) {
    n >= 2 && IsRun(n, steps) && WithoutCompaction(steps)
  }

  /** Nobody crashes or compacts, and no command is started. */
  predicate Calm(steps: seq<Step>) {
    forall k :: 0 <= k < |steps| ==> !steps[k].Crash? && !steps[k].CompactLog? && !steps[k].ClientStart?
  }

  /** `more` carries a run without compaction on calmly, and nothing applied is forgotten. */
  ghost predicate Onward(n: nat, steps: seq<Step>, more: seq<Step>)
    requires Plain(n, steps)
  {
    Plain(n, steps + more) && Calm(more) && After(n, steps).applied <= After(n, steps + more).applied
  }

  lemma OnwardOn(n: nat, steps: seq<Step>, a: seq<Step>, b: seq<Step>)
    requires Plain(n, steps) && Onward(n, steps, a) && Onward(n, steps + a, b)
    ensures Onward(n, steps, a + b) && steps + (a + b) == steps + a + b
  {
    hide IsRun;
    assert steps + (a + b) == steps + a + b;
  }

  /** One step, and what it makes of the peers. */
  lemma OneStep(n: nat, steps: seq<Step>, step: Step)
    requires Plain(n, steps) && !step.CompactLog? && Shaped(After(n, steps)) && Enabled(After(n, steps), step)
    ensures Plain(n, steps + [step]) && After(n, steps + [step]) == Do(After(n, steps), step)
    ensures PeersAre(n, steps + [step], Do(After(n, steps), step).peers)
  {
    hide IsRun, Enabled, Do, Shaped;
    OneMore(n, steps, step);
    NowIs(n, steps + [step]);
    assert forall k :: 0 <= k < |steps| ==> !(steps + [step])[k].CompactLog?;
    assert (steps + [step])[|steps|] == step;
  }

  lemma OneOnward(n: nat, steps: seq<Step>, step: Step)
    requires Plain(n, steps) && Calm([step]) && Shaped(After(n, steps)) && Enabled(After(n, steps), step)
    requires After(n, steps).applied <= Do(After(n, steps), step).applied
    ensures Onward(n, steps, [step]) && After(n, steps + [step]) == Do(After(n, steps), step)
    ensures PeersAre(n, steps + [step], Do(After(n, steps), step).peers)
  {
    hide IsRun, Enabled, Do, Shaped;
    assert [step][0] == step;
    OneStep(n, steps, step);
  }

  lemma LeadsOnward(n: nat, steps: seq<Step>, more: seq<Step>, peers: seq<Peer>)
    requires Plain(n, steps) && Leads(After(n, steps), more, peers) && Calm(more)
    ensures Onward(n, steps, more) && After(n, steps + more).peers == peers
    ensures PeersAre(n, steps + more, peers)
  {
    hide IsRun, RunFrom, End;
    Continue(n, steps, more);
    NowIs(n, steps + more);
  }

  // ---------------------------------------------------------------- a leader that is behind steps down

  /** A probe that meets a later term, its answer, and what the leader makes of that. */
  lemma Outdated(p: Peer, pf: seq<Entry>, f: Peer, ff: seq<Entry>, to: nat) returns (args: AppendArgs)
    requires Represents(p, pf) && Represents(f, ff) && p.role == Leader && p.snapshotIndex == 0 && f.term > p.term
    requires to < |p.nextIndex| == |p.matchIndex| && p.nextIndex[to] >= 1
    ensures |p.logs| > 0 && |f.logs| > 0 && args.leader == p.me && CheckConsistency(p, to) == SendAppend(args)
    ensures HandleAppend(f, args) == (f, AppendReply(f.term, false, 0))
    ensures HandleAppendReply(p, to, args, AppendReply(f.term, false, 0)) == Some(BeFollower(p, f.term))
  {
    ProbeRule(p, pf, to);
    args := CheckConsistency(p, to).append;
    AnswerRule(f, ff, args);
    OtherReplyRule(p, to, args, AppendReply(f.term, false, 0));
  }

  lemma FormedWith(peers: seq<Peer>, i: nat, q: Peer)
    requires Formed(peers) && i < |peers| && q.me == i && WellFormed(q, |peers|)
    ensures Formed(peers[i := q])
  {
  }

  /** A leader whose probe meets a later term learns of it. */
  lemma StepDown(n: nat, steps: seq<Step>, i: nat, j: nat) returns (more: seq<Step>)
    requires Plain(n, steps) && i < n && j < n && Now(n, steps, i).role == Leader
    requires Now(n, steps, j).term > Now(n, steps, i).term
    ensures Onward(n, steps, more)
    ensures Now(n, steps + more, i) == BeFollower(Now(n, steps, i), Now(n, steps, j).term)
    ensures forall k :: 0 <= k < n && k != i ==> Now(n, steps + more, k) == Now(n, steps, k)
  {
    hide IsRun, WithoutCompaction, Leads, HandleAppend, HandleAppendReply, CheckConsistency, Represents, WholeLog,
      PeerAt, Exchanged, Formed;
    NowIs(n, steps);
    var s, p, f := After(n, steps), Now(n, steps, i), Now(n, steps, j);
    PlainPeerFacts(n, steps, |steps|, i);
    var args := Outdated(p, WholeLog(n, steps, |steps|, i), f, WholeLog(n, steps, |steps|, j), j);
    var reply, q := AppendReply(f.term, false, 0), BeFollower(p, f.term);
    var peers := s.peers[j := f][i := q];
    assert s.peers[j := f] == s.peers;
    FormedWith(s.peers, i, q);
    Exchanging(s, j, args, f, reply, q);
    more := Exchanged(j, args, reply);
    CalmExchange(j, args, reply);
    LeadsOnward(n, steps, more, peers);
  }

  lemma CalmExchange(f: nat, args: AppendArgs, reply: AppendReply)
    ensures Calm(Exchanged(f, args, reply))
  {
  }

  // ---------------------------------------------------------------- campaigning

  /** The votes that candidate `i` has asked for in its term, from `k` on. */
  ghost predicate AskedFrom(n: nat, steps: seq<Step>, i: nat, k: nat)
    requires IsRun(n, steps) && i < n
  {
    var p := Now(n, steps, i);
    forall v: nat :: k <= v < n && v != i ==>
      && VoteCall(i, p.term, v) in After(n, steps).votes
      && After(n, steps).votes[VoteCall(i, p.term, v)] == Asked(VoteRequest(p))
  }

  function Candidacy(p: Peer, t: nat): Peer {
    p.(term := t, votedFor := p.me, role := Candidate, voteCount := 1)
  }

  lemma Campaign(n: nat, steps: seq<Step>, i: nat)
    requires Plain(n, steps) && i < n && Now(n, steps, i).role != Leader
    ensures Onward(n, steps, [Timeout(i)]) && AskedFrom(n, steps + [Timeout(i)], i, 0)
    ensures Now(n, steps + [Timeout(i)], i) == Candidacy(Now(n, steps, i), Now(n, steps, i).term + 1)
    ensures forall k :: 0 <= k < n && k != i ==> Now(n, steps + [Timeout(i)], k) == Now(n, steps, k)
  {
    hide IsRun, VoteRequest;
    NowIs(n, steps);
    OneOnward(n, steps, Timeout(i));
  }

  /** By campaigning again and again, a server gets to any later term. */
  lemma {:induction false} Raise(n: nat, steps: seq<Step>, i: nat, t: nat) returns (more: seq<Step>)
    requires Plain(n, steps) && i < n && Now(n, steps, i).role != Leader && Now(n, steps, i).term < t
    ensures Onward(n, steps, more) && AskedFrom(n, steps + more, i, 0)
    ensures Now(n, steps + more, i) == Candidacy(Now(n, steps, i), t)
    ensures forall k :: 0 <= k < n && k != i ==> Now(n, steps + more, k) == Now(n, steps, k)
    decreases t - Now(n, steps, i).term
  {
    hide IsRun, VoteRequest, WithoutCompaction, AskedFrom;
    Campaign(n, steps, i);
    var first := [Timeout(i)];
    if Now(n, steps, i).term + 1 == t {
      more := first;
    } else {
      var rest := Raise(n, steps + first, i, t);
      OnwardOn(n, steps, first, rest);
      more := first + rest;
    }
  }

  // ---------------------------------------------------------------- voting

  /** How many servers below `k` are not `i`, and `i` itself. */
  function VotesBefore(i: nat, k: nat): nat {
    if i < k then k else k + 1
  }

  /** Servers from `k` on have not heard of the term of candidate `i`, and their logs are not more up to date. */
  ghost predicate Voters(n: nat, steps: seq<Step>, i: nat, k: nat)
    requires IsRun(n, steps) && i < n
  {
    var p := Now(n, steps, i);
    && |p.logs| > 0
    && (forall v :: 0 <= v < n ==> Now(n, steps, v).term <= p.term)
    && (forall v :: k <= v < n && v != i ==>
          Now(n, steps, v).term < p.term && CandidateUpToDate(Now(n, steps, v), VoteRequest(p)))
  }

  /** Candidate `i`, with the votes of the servers below `k` and no majority yet, or leader already. */
  ghost predicate Running(n: nat, steps: seq<Step>, i: nat, k: nat)
    requires IsRun(n, steps) && i < n
  {
    var p := Now(n, steps, i);
    p.role == Leader || (p.role == Candidate && p.voteCount == VotesBefore(i, k) <= n / 2 && AskedFrom(n, steps, i, k))
  }

  /** A voter of an earlier term with no more up to date log votes for the candidate. */
  lemma Granting(p: Peer, args: VoteArgs)
    requires |p.logs| > 0 && p.term < args.term && CandidateUpToDate(p, args)
    ensures HandleVote(p, args) == (BeFollower(p, args.term).(votedFor := args.candidate), VoteReply(args.term, true))
  {
  }

  lemma Counting(p: Peer, n: nat)
    requires WellFormed(p, n) && p.role == Candidate
    ensures var q := HandleVoteReply(p, VoteReply(p.term, true));
            && q.term == p.term && q.logs == p.logs && q.me == p.me && q.voteCount == p.voteCount + 1
            && q.role == (if p.voteCount + 1 > n / 2 then Leader else Candidate) && q.snapshotIndex == p.snapshotIndex
            && (q.role == Candidate ==> VoteRequest(q) == VoteRequest(p))
  {
  }

  lemma VoteDelivered(n: nat, steps: seq<Step>, call: VoteCall, args: VoteArgs)
    requires Plain(n, steps) && call in After(n, steps).votes && After(n, steps).votes[call] == Asked(args)
    requires call.voter < n
    ensures var more := steps + [DeliverVote(call)];
            && Onward(n, steps, [DeliverVote(call)]) && |Now(n, steps, call.voter).logs| > 0
            && Now(n, more, call.voter) == HandleVote(Now(n, steps, call.voter), args).0
            && (forall v :: 0 <= v < n && v != call.voter ==> Now(n, more, v) == Now(n, steps, v))
            && After(n, more).votes
               == After(n, steps).votes[call := Answered(HandleVote(Now(n, steps, call.voter), args).1)]
  {
    hide IsRun, HandleVote;
    NowIs(n, steps);
    OneOnward(n, steps, DeliverVote(call));
  }

  lemma VoteTaken(n: nat, steps: seq<Step>, call: VoteCall, reply: VoteReply)
    requires Plain(n, steps) && call in After(n, steps).votes && After(n, steps).votes[call] == Answered(reply)
    requires call.candidate < n
    ensures var more := steps + [TakeVoteReply(call)];
            && Onward(n, steps, [TakeVoteReply(call)]) && WellFormed(Now(n, steps, call.candidate), n)
            && Now(n, more, call.candidate) == HandleVoteReply(Now(n, steps, call.candidate), reply)
            && (forall v :: 0 <= v < n && v != call.candidate ==> Now(n, more, v) == Now(n, steps, v))
            && After(n, more).votes == After(n, steps).votes - {call}
  {
    hide IsRun, HandleVoteReply;
    NowIs(n, steps);
    OneOnward(n, steps, TakeVoteReply(call));
  }

  /** Server `k` is asked, and its vote is counted. */
  lemma OneVote(n: nat, steps: seq<Step>, i: nat, k: nat) returns (more: seq<Step>)
    requires Plain(n, steps) && i < n && k < n && k != i && Now(n, steps, i).role == Candidate
    requires Voters(n, steps, i, k) && Running(n, steps, i, k)
    ensures Onward(n, steps, more) && Voters(n, steps + more, i, k + 1) && Running(n, steps + more, i, k + 1)
    ensures Now(n, steps + more, i).term == Now(n, steps, i).term
    ensures Now(n, steps + more, i).logs == Now(n, steps, i).logs
  {
    hide IsRun, WithoutCompaction, PeerAt, HandleVote, HandleVoteReply, CandidateUpToDate, After;
    var p, f := Now(n, steps, i), Now(n, steps, k);
    var call := VoteCall(i, p.term, k);
    var a, b := [DeliverVote(call)], [TakeVoteReply(call)];
    VoteDelivered(n, steps, call, VoteRequest(p));
    Granting(f, VoteRequest(p));
    VoteTaken(n, steps + a, call, VoteReply(p.term, true));
    Counting(p, n);
    OnwardOn(n, steps, a, b);
    more := a + b;
    VotedOn(n, steps, more, i, k);
  }

  lemma VotedOn(n: nat, steps: seq<Step>, more: seq<Step>, i: nat, k: nat)
    requires Plain(n, steps) && Plain(n, steps + more) && i < n && k < n && k != i && Now(n, steps, i).role == Candidate
    requires Voters(n, steps, i, k) && Running(n, steps, i, k)
    requires var p, q := Now(n, steps, i), Now(n, steps + more, i);
             && q.term == p.term && q.logs == p.logs && q.me == p.me && q.voteCount == p.voteCount + 1
             && q.role == (if p.voteCount + 1 > n / 2 then Leader else Candidate) && q.snapshotIndex == p.snapshotIndex
    requires forall v :: 0 <= v < n && v != i && v != k ==> Now(n, steps + more, v) == Now(n, steps, v)
    requires Now(n, steps + more, k).term == Now(n, steps, i).term
    requires forall v: nat :: k + 1 <= v < n && v != i ==>
               var call := VoteCall(i, Now(n, steps, i).term, v);
               call in After(n, steps).votes ==>
                 call in After(n, steps + more).votes
                 && After(n, steps + more).votes[call] == After(n, steps).votes[call]
    ensures Voters(n, steps + more, i, k + 1) && Running(n, steps + more, i, k + 1)
  {
    hide IsRun, WithoutCompaction, CandidateUpToDate;
  }

  /** A candidate nobody is beyond, and nobody is more up to date than, becomes leader. */
  lemma {:induction false} Wins(n: nat, steps: seq<Step>, i: nat, k: nat) returns (more: seq<Step>)
    requires Plain(n, steps) && i < n && k <= n && Voters(n, steps, i, k) && Running(n, steps, i, k)
    ensures Onward(n, steps, more) && Reigns(n, steps + more, i)
    decreases n - k
  {
    hide IsRun, WithoutCompaction, PeerAt, Onward, AskedFrom;
    if Now(n, steps, i).role == Leader {
      more := [];
      NothingMore(n, steps);
    } else if k == i {
      Skip(n, steps, i);
      more := Wins(n, steps, i, k + 1);
    } else {
      var first := OneVote(n, steps, i, k);
      assert Plain(n, steps + first) by { OnwardPlain(n, steps, first); }
      var rest := Wins(n, steps + first, i, k + 1);
      OnwardOn(n, steps, first, rest);
      more := first + rest;
    }
  }

  lemma OnwardPlain(n: nat, steps: seq<Step>, more: seq<Step>)
    requires Plain(n, steps) && Onward(n, steps, more)
    ensures Plain(n, steps + more)
  {
  }

  lemma NothingMore(n: nat, steps: seq<Step>)
    requires Plain(n, steps)
    ensures Onward(n, steps, []) && steps + [] == steps
  {
    assert steps + [] == steps;
  }

  lemma Skip(n: nat, steps: seq<Step>, i: nat)
    requires IsRun(n, steps) && i < n && Voters(n, steps, i, i) && Running(n, steps, i, i)
    ensures Voters(n, steps, i, i + 1) && Running(n, steps, i, i + 1)
  {
    hide IsRun, PeerAt, CandidateUpToDate;
  }

  // ---------------------------------------------------------------- a leader nobody is beyond

  /** A leader of a term that no server is beyond. */
  ghost predicate Reigns(n: nat, steps: seq<Step>, l: nat)
    requires IsRun(n, steps)
  {
    && l < n && Now(n, steps, l).role == Leader
    && forall j :: 0 <= j < n ==> Now(n, steps, j).term <= Now(n, steps, l).term
  }

  /** `p` has a log that is at least as up to date as that of `q`. */
  predicate Ahead(p: Peer, q: Peer)
    requires |p.logs| > 0 && |q.logs| > 0
  {
    var a, b := p.logs[|p.logs| - 1].term, q.logs[|q.logs| - 1].term;
    a > b || (a == b && p.Last() >= q.Last())
  }

  lemma {:induction false} Foremost(peers: seq<Peer>) returns (i: nat)
    requires |peers| > 0 && forall j :: 0 <= j < |peers| ==> |peers[j].logs| > 0
    ensures i < |peers| && forall j :: 0 <= j < |peers| ==> Ahead(peers[i], peers[j])
    decreases |peers|
  {
    i := |peers| - 1;
    if |peers| > 1 {
      var k := Foremost(peers[..|peers| - 1]);
      if Ahead(peers[k], peers[i]) {
        i := k;
      }
    }
  }

  lemma {:induction false} Latest(peers: seq<Peer>) returns (i: nat)
    requires |peers| > 0
    ensures i < |peers| && forall j :: 0 <= j < |peers| ==> peers[j].term <= peers[i].term
    decreases |peers|
  {
    i := |peers| - 1;
    if |peers| > 1 {
      var k := Latest(peers[..|peers| - 1]);
      if peers[k].term > peers[i].term {
        i := k;
      }
    }
  }

  /** A server that is not leader, with the best log, campaigns until it leads a term nobody is beyond. */
  lemma CampaignsAndWins(n: nat, steps: seq<Step>, i: nat, t: nat) returns (more: seq<Step>)
    requires Plain(n, steps) && i < n && Now(n, steps, i).role != Leader
    requires forall j :: 0 <= j < n ==>
               |Now(n, steps, j).logs| > 0 && Now(n, steps, j).term < t && |Now(n, steps, i).logs| > 0
               && Ahead(Now(n, steps, i), Now(n, steps, j))
    ensures Onward(n, steps, more) && Reigns(n, steps + more, i)
  {
    hide IsRun, WithoutCompaction, PeerAt, AskedFrom, Onward;
    var first := Raise(n, steps, i, t);
    OnwardPlain(n, steps, first);
    var now := steps + first;
    forall v | 0 <= v < n && v != i ensures CandidateUpToDate(Now(n, now, v), VoteRequest(Now(n, now, i))) {
      assert Ahead(Now(n, steps, i), Now(n, steps, v));
    }
    var rest := Wins(n, now, i, 0);
    OnwardOn(n, steps, first, rest);
    more := first + rest;
  }

  /** In every run without compaction of two servers or more, somebody can become leader with nobody beyond. */
  lemma SomebodyReigns(n: nat, steps: seq<Step>) returns (more: seq<Step>, l: nat)
    requires Plain(n, steps)
    ensures Onward(n, steps, more) && Reigns(n, steps + more, l)
  {
    hide IsRun, WithoutCompaction, PeerAt, Onward, Reigns, Ahead;
    NowIs(n, steps);
    var s := After(n, steps);
    var best := Foremost(s.peers);
    var last := Latest(s.peers);
    var t := s.peers[last].term + 1;
    if s.peers[best].role != Leader {
      more := CampaignsAndWins(n, steps, best, t);
      l := best;
    } else if s.peers[best].term == s.peers[last].term {
      NothingMore(n, steps);
      more, l := [], best;
      assert Reigns(n, steps, best) by { ReignsIs(n, steps, best); }
    } else {
      var first := StepDown(n, steps, best, last);
      OnwardPlain(n, steps, first);
      AheadStill(n, steps, first, best, t);
      var rest := CampaignsAndWins(n, steps + first, best, t);
      OnwardOn(n, steps, first, rest);
      more, l := first + rest, best;
    }
  }

  lemma ReignsIs(n: nat, steps: seq<Step>, l: nat)
    requires IsRun(n, steps) && l < n && Now(n, steps, l).role == Leader
    requires forall j :: 0 <= j < n ==> Now(n, steps, j).term <= Now(n, steps, l).term
    ensures Reigns(n, steps, l)
  {
  }

  lemma AheadStill(n: nat, steps: seq<Step>, more: seq<Step>, i: nat, t: nat)
    requires IsRun(n, steps) && IsRun(n, steps + more) && i < n
    requires Now(n, steps + more, i).logs == Now(n, steps, i).logs
    requires Now(n, steps + more, i).snapshotIndex == Now(n, steps, i).snapshotIndex && Now(n, steps + more, i).term < t
    requires forall k :: 0 <= k < n && k != i ==> Now(n, steps + more, k) == Now(n, steps, k)
    requires forall j :: 0 <= j < n ==>
               |Now(n, steps, j).logs| > 0 && Now(n, steps, j).term < t && |Now(n, steps, i).logs| > 0
               && Ahead(Now(n, steps, i), Now(n, steps, j))
    ensures forall j :: 0 <= j < n ==>
              |Now(n, steps + more, j).logs| > 0 && Now(n, steps + more, j).term < t
              && |Now(n, steps + more, i).logs| > 0 && Ahead(Now(n, steps + more, i), Now(n, steps + more, j))
  {
    hide IsRun, PeerAt;
    forall j | 0 <= j < n
      ensures |Now(n, steps + more, j).logs| > 0 && Now(n, steps + more, j).term < t
      ensures |Now(n, steps + more, i).logs| > 0 && Ahead(Now(n, steps + more, i), Now(n, steps + more, j))
    {
      assert Ahead(Now(n, steps, i), Now(n, steps, j));
    }
  }

  /** A server alone never leads: the code counts votes only when a reply comes in. */
  lemma {:induction false} LonelyNeverLeads(steps: seq<Step>)
    requires IsRun(1, steps)
    ensures |After(1, steps).peers| == 1 && After(1, steps).peers[0].role != Leader && After(1, steps).votes == map[]
    decreases |steps|
  {
    if steps != [] {
      var before := steps[..|steps| - 1];
      LonelyNeverLeads(before);
      LonelyStep(After(1, before), steps[|steps| - 1]);
    }
  }

  lemma LonelyStep(s: System, step: Step)
    requires Shaped(s) && Enabled(s, step) && |s.peers| == 1 && s.peers[0].role != Leader && s.votes == map[]
    ensures var t := Do(s, step); |t.peers| == 1 && t.peers[0].role != Leader && t.votes == map[]
  {
    hide RunStart, Merge, Matched, Apply;
    if step.ApplyLog? {
      AppliedRole(s.peers[step.i]);
    }
  }

  lemma AppliedRole(p: Peer)
    ensures Apply(p).Some? ==> Apply(p).value.0.role == p.role
  {
  }
}
