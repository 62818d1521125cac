/** Building runs of a cluster out of exchanges: elections, probes and their replies. */
module RaftRuns {
  import opened RaftTypes
  import opened RaftPeer
  import opened RaftSystem

  /** The steps can be taken one after the other from `s`. */
  ghost predicate RunFrom(s: System, steps: seq<Step>)
    decreases |steps|
  {
    Shaped(s) && (steps != [] ==> Enabled(s, steps[0]) && RunFrom(Do(s, steps[0]), steps[1..]))
  }

  ghost function End(s: System, steps: seq<Step>): System
    requires RunFrom(s, steps)
    decreases |steps|
  {
    if steps == [] then s else End(Do(s, steps[0]), steps[1..])
  }

  lemma One(s: System, step: Step)
    requires Shaped(s) && Enabled(s, step) && Shaped(Do(s, step))
    ensures RunFrom(s, [step]) && End(s, [step]) == Do(s, step)
  {
    hide Shaped, Enabled, Do;
    assert [step][0] == step && [step][1..] == [];
    assert RunFrom(Do(s, step), []);
  }

  lemma {:induction false} Join(s: System, a: seq<Step>, b: seq<Step>)
    requires RunFrom(s, a) && RunFrom(End(s, a), b)
    ensures RunFrom(s, a + b) && End(s, a + b) == End(End(s, a), b)
    decreases |a|
  {
    hide Shaped, Enabled, Do;
    if a == [] {
      assert a + b == b;
    } else {
      Join(Do(s, a[0]), a[1..], b);
      assert (a + b)[0] == a[0] && (a + b)[1..] == a[1..] + b;
    }
  }

  /** A run from the initial state is a run of the cluster. */
  lemma {:induction false} FromStart(n: nat, steps: seq<Step>, k: nat)
    requires RunFrom(Init(n), steps) && k <= |steps|
    ensures IsRun(n, steps[..k]) && RunFrom(After(n, steps[..k]), steps[k..])
    ensures End(Init(n), steps) == End(After(n, steps[..k]), steps[k..])
    decreases k
  {
    hide Shaped, Enabled, Do;
    if k == 0 {
      assert steps[..0] == [] && steps[0..] == steps;
    } else {
      FromStart(n, steps, k - 1);
      var now, rest := steps[..k], steps[k - 1..];
      assert now[..|now| - 1] == steps[..k - 1] && now[|now| - 1] == steps[k - 1];
      assert rest[0] == steps[k - 1] && rest[1..] == steps[k..];
    }
  }

  lemma RunOfCluster(n: nat, steps: seq<Step>)
    requires RunFrom(Init(n), steps)
    ensures IsRun(n, steps) && After(n, steps) == End(Init(n), steps)
  {
    FromStart(n, steps, |steps|);
    assert steps[..|steps|] == steps && steps[|steps|..] == [];
  }

  // ---------------------------------------------------------------- exchanges

  /** From `s` the steps lead to a state with these peers, which still has every message and everything applied. */
  ghost predicate Leads(s: System, steps: seq<Step>, peers: seq<Peer>) {
    && RunFrom(s, steps) && End(s, steps).peers == peers
    && s.net <= End(s, steps).net && s.applied <= End(s, steps).applied
  }

  lemma LeadsOn(s: System, a: seq<Step>, mid: seq<Peer>, b: seq<Step>, peers: seq<Peer>)
    requires Leads(s, a, mid) && Leads(End(s, a), b, peers)
    ensures Leads(s, a + b, peers) && End(s, a + b) == End(End(s, a), b)
  {
    hide RunFrom, End;
    Join(s, a, b);
  }

  predicate Formed(peers: seq<Peer>) {
    forall i :: 0 <= i < |peers| ==> WellFormed(peers[i], |peers|) && peers[i].me == i
  }

  lemma OneLeads(s: System, step: Step, peers: seq<Peer>)
    requires Shaped(s) && Enabled(s, step) && Do(s, step).peers == peers && Formed(peers)
    requires s.net <= Do(s, step).net && s.applied <= Do(s, step).applied
    ensures Leads(s, [step], peers) && End(s, [step]) == Do(s, step)
  {
    hide Enabled, Do;
    One(s, step);
  }

  /** `i` campaigns and `v` answers. */
  function Campaigned(i: nat, v: nat, term: nat): seq<Step> {
    [Timeout(i), DeliverVote(VoteCall(i, term, v))]
  }

  /** The peers after `v` has answered the campaign of `i`. */
  function AfterCampaign(peers: seq<Peer>, i: nat, v: nat): seq<Peer>
    requires Formed(peers) && |peers| == 3 && i < 3 && v < 3 && i != v
  {
    var p := StartElection(peers[i]);
    peers[i := p][v := HandleVote(peers[v], VoteRequest(p)).0]
  }

  lemma Campaigning(s: System, i: nat, v: nat, w: nat)
    requires Formed(s.peers) && |s.peers| == 3 && i < 3 && v < 3 && w < 3 && i != v && w != i && w != v
    requires s.peers[i].role != Leader
    requires Formed(AfterCampaign(s.peers, i, v))
    ensures var p := StartElection(s.peers[i]);
            var steps := Campaigned(i, v, p.term);
            && Leads(s, steps, AfterCampaign(s.peers, i, v)) && End(s, steps).net == s.net
            && VoteCall(i, p.term, v) in End(s, steps).votes && VoteCall(i, p.term, w) in End(s, steps).votes
            && End(s, steps).votes[VoteCall(i, p.term, v)] == Answered(HandleVote(s.peers[v], VoteRequest(p)).1)
            && End(s, steps).votes[VoteCall(i, p.term, w)] == Asked(VoteRequest(p))
  {
    hide HandleVote, RunFrom, End, Leads;
    var p := StartElection(s.peers[i]);
    var call := VoteCall(i, p.term, v);
    OneLeads(s, Timeout(i), s.peers[i := p]);
    var t := Do(s, Timeout(i));
    assert t.votes[call] == Asked(VoteRequest(p));
    OneLeads(t, DeliverVote(call), AfterCampaign(s.peers, i, v));
    LeadsOn(s, [Timeout(i)], s.peers[i := p], [DeliverVote(call)], AfterCampaign(s.peers, i, v));
    assert [Timeout(i)] + [DeliverVote(call)] == Campaigned(i, v, p.term);
  }

  function Elected(i: nat, v: nat, term: nat): seq<Step> {
    Campaigned(i, v, term) + [TakeVoteReply(VoteCall(i, term, v))]
  }

  /** The peers after `i` has become leader with the vote of `v`. */
  function AfterElection(peers: seq<Peer>, i: nat, v: nat): seq<Peer>
    requires Formed(peers) && |peers| == 3 && i < 3 && v < 3 && i != v
  {
    AfterCampaign(peers, i, v)[i := BecomeLeader(StartElection(peers[i]).(voteCount := 2))]
  }

  lemma Electing(s: System, i: nat, v: nat, w: nat)
    requires Formed(s.peers) && |s.peers| == 3 && i < 3 && v < 3 && w < 3 && i != v && w != i && w != v
    requires s.peers[i].role != Leader
    requires Formed(AfterCampaign(s.peers, i, v)) && Formed(AfterElection(s.peers, i, v))
    requires var p := StartElection(s.peers[i]); HandleVote(s.peers[v], VoteRequest(p)).1 == VoteReply(p.term, true)
    ensures var p := StartElection(s.peers[i]);
            var steps := Elected(i, v, p.term);
            && Leads(s, steps, AfterElection(s.peers, i, v)) && VoteCall(i, p.term, w) in End(s, steps).votes
            && End(s, steps).votes[VoteCall(i, p.term, w)] == Asked(VoteRequest(p))
  {
    hide HandleVote, RunFrom, End, BecomeLeader, VoteRequest;
    var p := StartElection(s.peers[i]);
    Campaigning(s, i, v, w);
    var first, call := Campaigned(i, v, p.term), VoteCall(i, p.term, v);
    var t := End(s, first);
    OneLeads(t, TakeVoteReply(call), AfterElection(s.peers, i, v));
    LeadsOn(s, first, AfterCampaign(s.peers, i, v), [TakeVoteReply(call)], AfterElection(s.peers, i, v));
  }

  /** A vote request still in flight reaches `w`. */
  lemma Asking(s: System, call: VoteCall, args: VoteArgs, q: Peer)
    requires Formed(s.peers) && call in s.votes && s.votes[call] == Asked(args) && call.voter < |s.peers|
    requires HandleVote(s.peers[call.voter], args).0 == q && Formed(s.peers[call.voter := q])
    ensures Leads(s, [DeliverVote(call)], s.peers[call.voter := q])
  {
    hide HandleVote, RunFrom, End;
    OneLeads(s, DeliverVote(call), s.peers[call.voter := q]);
  }

  lemma Sending(s: System, l: nat, f: nat, args: AppendArgs)
    requires Formed(s.peers) && l < |s.peers| && f < |s.peers| && l != f
    requires CheckConsistency(s.peers[l], f) == SendAppend(args)
    ensures Leads(s, [Check(l, f)], s.peers) && AppendMsg(f, args) in End(s, [Check(l, f)]).net
  {
    hide CheckConsistency, RunFrom, End;
    OneLeads(s, Check(l, f), s.peers);
  }

  lemma Delivering(s: System, f: nat, args: AppendArgs, q: Peer, reply: AppendReply)
    requires Formed(s.peers) && f < |s.peers| && AppendMsg(f, args) in s.net
    requires HandleAppend(s.peers[f], args) == (q, reply)
    requires Formed(s.peers[f := q])
    ensures var step := DeliverAppend(AppendMsg(f, args));
            Leads(s, [step], s.peers[f := q]) && AppendReplyMsg(f, args, reply) in End(s, [step]).net
  {
    hide HandleAppend, RunFrom, End;
    OneLeads(s, DeliverAppend(AppendMsg(f, args)), s.peers[f := q]);
  }

  lemma Taking(s: System, f: nat, args: AppendArgs, reply: AppendReply, q: Peer)
    requires Formed(s.peers) && f < |s.peers| && args.leader < |s.peers| && AppendReplyMsg(f, args, reply) in s.net
    requires HandleAppendReply(s.peers[args.leader], f, args, reply) == Some(q) && Formed(s.peers[args.leader := q])
    ensures Leads(s, [TakeAppendReply(AppendReplyMsg(f, args, reply))], s.peers[args.leader := q])
  {
    hide HandleAppendReply, RunFrom, End;
    OneLeads(s, TakeAppendReply(AppendReplyMsg(f, args, reply)), s.peers[args.leader := q]);
  }

  /** `l` probes `f`, which answers. */
  function Probed(f: nat, args: AppendArgs): seq<Step> {
    [Check(args.leader, f)] + [DeliverAppend(AppendMsg(f, args))]
  }

  lemma Probing(s: System, f: nat, args: AppendArgs, q: Peer, reply: AppendReply)
    requires Formed(s.peers) && f < |s.peers| && args.leader < |s.peers| && args.leader != f && Formed(s.peers[f := q])
    requires CheckConsistency(s.peers[args.leader], f) == SendAppend(args)
    requires HandleAppend(s.peers[f], args) == (q, reply)
    ensures Leads(s, Probed(f, args), s.peers[f := q])
    ensures AppendReplyMsg(f, args, reply) in End(s, Probed(f, args)).net
  {
    hide CheckConsistency, HandleAppend, RunFrom, End;
    Sending(s, args.leader, f, args);
    var t := End(s, [Check(args.leader, f)]);
    Delivering(t, f, args, q, reply);
    LeadsOn(s, [Check(args.leader, f)], s.peers, [DeliverAppend(AppendMsg(f, args))], s.peers[f := q]);
  }

  /** A probe and the reply to it. */
  function Exchanged(f: nat, args: AppendArgs, reply: AppendReply): seq<Step> {
    Probed(f, args) + [TakeAppendReply(AppendReplyMsg(f, args, reply))]
  }

  lemma Exchanging(s: System, f: nat, args: AppendArgs, q: Peer, reply: AppendReply, r: Peer)
    requires Formed(s.peers) && f < |s.peers| && args.leader < |s.peers| && args.leader != f && Formed(s.peers[f := q])
    requires CheckConsistency(s.peers[args.leader], f) == SendAppend(args)
    requires HandleAppend(s.peers[f], args) == (q, reply)
    requires HandleAppendReply(s.peers[args.leader], f, args, reply) == Some(r)
    requires Formed(s.peers[f := q][args.leader := r])
    ensures Leads(s, Exchanged(f, args, reply), s.peers[f := q][args.leader := r])
  {
    hide CheckConsistency, HandleAppend, HandleAppendReply, RunFrom, End, Probed;
    Probing(s, f, args, q, reply);
    var t, last := End(s, Probed(f, args)), [TakeAppendReply(AppendReplyMsg(f, args, reply))];
    Taking(t, f, args, reply, r);
    LeadsOn(s, Probed(f, args), s.peers[f := q], last, s.peers[f := q][args.leader := r]);
  }

  lemma Starting(s: System, i: nat, command: Command, q: Peer)
    requires Formed(s.peers) && i < |s.peers| && Propose(s.peers[i], command) == q && Formed(s.peers[i := q])
    ensures Leads(s, [ClientStart(i, command)], s.peers[i := q])
  {
    hide Propose, RunFrom, End;
    OneLeads(s, ClientStart(i, command), s.peers[i := q]);
  }

  lemma Compacting(s: System, i: nat, index: nat, q: Peer)
    requires Formed(s.peers) && i < |s.peers| && Compact(s.peers[i], index) == q && Formed(s.peers[i := q])
    ensures Leads(s, [CompactLog(i, index)], s.peers[i := q])
  {
    hide Compact, RunFrom, End;
    OneLeads(s, CompactLog(i, index), s.peers[i := q]);
  }

  lemma Applying(s: System, i: nat, q: Peer, msgs: seq<ApplyMsg>)
    requires Formed(s.peers) && i < |s.peers| && Apply(s.peers[i]) == Some((q, msgs)) && Formed(s.peers[i := q])
    ensures Leads(s, [ApplyLog(i)], s.peers[i := q]) && Handed(i, msgs) <= End(s, [ApplyLog(i)]).applied
  {
    hide Apply, RunFrom, End, Handed;
    OneLeads(s, ApplyLog(i), s.peers[i := q]);
  }

  // ---------------------------------------------------------------- values

  lemma MergeAtEnd(logs: seq<Entry>, entries: seq<Entry>)
    ensures Merge(logs, |logs|, entries) == logs + entries
  {
    assert MatchLen(logs, |logs|, entries) == 0;
    assert logs[..|logs|] == logs && entries[0..] == entries;
    assert entries == [] ==> logs + entries == logs;
  }

  lemma MergeNothing(logs: seq<Entry>, at: nat)
    requires at <= |logs|
    ensures Merge(logs, at, []) == logs
  {
  }

  lemma NewLeader(p: Peer)
    requires |p.logs| > 0 && |p.nextIndex| == 3 && |p.matchIndex| == 3 && p.me < 3
    ensures var l := p.Last();
            BecomeLeader(p) == p.(role := Leader, nextIndex := [l + 1, l + 1, l + 1],
                matchIndex := [0, 0, 0][p.me := l])
  {
    var q, l := BecomeLeader(p), p.Last();
    assert q.nextIndex == [l + 1, l + 1, l + 1] && q.matchIndex == [0, 0, 0][p.me := l];
  }

  lemma TwoMatched(matchIndex: seq<nat>, m: nat, a: nat, b: nat)
    requires |matchIndex| == 3 && a < 3 && b < 3 && a != b && matchIndex[a] >= m && matchIndex[b] >= m
    ensures |Matched(matchIndex, m)| >= 2
  {
    var q := Matched(matchIndex, m);
    assert a in q && b in q - {a} && |q| == |q - {a}| + 1 && |q - {a}| == |q - {a} - {b}| + 1;
  }

  /** A leader that hears of a success moves both indexes, and its commit index with a second server of three. */
  lemma Advancing(p: Peer, from: nat, args: AppendArgs, other: nat)
    requires |p.nextIndex| == 3 && |p.matchIndex| == 3 && from < 3 && other < 3 && from != other && p.role == Leader
    requires var m := args.prevIndex + |args.entries|;
             && m > p.matchIndex[from] && m > p.commitIndex && p.matchIndex[other] >= m
             && 0 <= m - p.snapshotIndex < |p.logs| && p.logs[m - p.snapshotIndex].term == p.term
    ensures var m := args.prevIndex + |args.entries|;
            HandleAppendReply(p, from, args, AppendReply(p.term, true, 0))
            == Some(p.(matchIndex := p.matchIndex[from := m], nextIndex := p.nextIndex[from := m + 1],
                commitIndex := m))
  {
    hide Matched;
    var m := args.prevIndex + |args.entries|;
    TwoMatched(p.matchIndex[from := m], m, from, other);
  }

  /** A follower whose log ends where the entries begin appends them. */
  lemma Appending(p: Peer, args: AppendArgs)
    requires |p.logs| > 0 && args.term >= p.term && args.leaderCommit <= p.Last()
    requires args.prevIndex == p.Last() && p.logs[|p.logs| - 1].term == args.prevTerm
    ensures var q := Heed(p, args.term).(logs := p.logs + args.entries,
            commitIndex := Max(p.commitIndex, args.leaderCommit));
            HandleAppend(p, args) == (q, AppendReply(args.term, true, 0))
  {
    hide Merge;
    MergeAtEnd(p.logs, args.entries);
  }

  // ---------------------------------------------------------------- one exchange after the other

  /** The state that the steps lead to. */
  ghost function Then(s: System, steps: seq<Step>, peers: seq<Peer>): (t: System)
    requires Leads(s, steps, peers)
    ensures t.peers == peers && t == End(s, steps) && s.net <= t.net && s.applied <= t.applied
  {
    End(s, steps)
  }

  lemma AndElect(s: System, steps: seq<Step>, peers: seq<Peer>, i: nat, v: nat, w: nat, term: nat, peers': seq<Peer>)
    requires Leads(s, steps, peers) && Formed(peers) && Formed(peers') && |peers| == 3
    requires i < 3 && v < 3 && w < 3 && i != v && w != i && w != v && peers[i].role != Leader
    requires Formed(AfterCampaign(peers, i, v)) && AfterElection(peers, i, v) == peers'
    requires var p := StartElection(peers[i]);
             p.term == term && HandleVote(peers[v], VoteRequest(p)).1 == VoteReply(term, true)
    ensures Leads(s, steps + Elected(i, v, term), peers')
    ensures var t := End(s, steps + Elected(i, v, term));
            VoteCall(i, term, w) in t.votes
            && t.votes[VoteCall(i, term, w)] == Asked(VoteRequest(StartElection(peers[i])))
  {
    hide RunFrom, End, Leads, HandleVote, AfterCampaign, AfterElection, Elected, VoteRequest;
    Electing(Then(s, steps, peers), i, v, w);
    LeadsOn(s, steps, peers, Elected(i, v, term), peers');
  }

  lemma AndProbe(
    s: System, steps: seq<Step>, peers: seq<Peer>, f: nat, args: AppendArgs, reply: AppendReply, peers': seq<Peer>)
    requires Leads(s, steps, peers) && Formed(peers) && Formed(peers') && |peers'| == |peers|
    requires f < |peers| && args.leader < |peers| && args.leader != f && peers' == peers[f := peers'[f]]
    requires CheckConsistency(peers[args.leader], f) == SendAppend(args)
    requires HandleAppend(peers[f], args) == (peers'[f], reply)
    ensures Leads(s, steps + Probed(f, args), peers')
    ensures AppendReplyMsg(f, args, reply) in End(s, steps + Probed(f, args)).net
  {
    hide RunFrom, End, Leads, CheckConsistency, HandleAppend, Probed;
    Probing(Then(s, steps, peers), f, args, peers'[f], reply);
    LeadsOn(s, steps, peers, Probed(f, args), peers');
  }

  lemma AndExchange(
    s: System, steps: seq<Step>, peers: seq<Peer>, f: nat, args: AppendArgs, reply: AppendReply, peers': seq<Peer>)
    requires Leads(s, steps, peers) && Formed(peers) && Formed(peers') && |peers'| == |peers|
    requires f < |peers| && args.leader < |peers| && args.leader != f
    requires peers' == peers[f := peers'[f]][args.leader := peers'[args.leader]]
    requires CheckConsistency(peers[args.leader], f) == SendAppend(args)
    requires HandleAppend(peers[f], args) == (peers'[f], reply)
    requires HandleAppendReply(peers[args.leader], f, args, reply) == Some(peers'[args.leader])
    ensures Leads(s, steps + Exchanged(f, args, reply), peers')
  {
    hide RunFrom, End, Leads, CheckConsistency, HandleAppend, HandleAppendReply, Exchanged;
    Exchanging(Then(s, steps, peers), f, args, peers'[f], reply, peers'[args.leader]);
    LeadsOn(s, steps, peers, Exchanged(f, args, reply), peers');
  }

  lemma AndDeliver(
    s: System, steps: seq<Step>, peers: seq<Peer>, f: nat, args: AppendArgs, reply: AppendReply, peers': seq<Peer>)
    requires Leads(s, steps, peers) && Formed(peers) && Formed(peers') && |peers'| == |peers| && f < |peers|
    requires peers' == peers[f := peers'[f]]
    requires AppendMsg(f, args) in End(s, steps).net && HandleAppend(peers[f], args) == (peers'[f], reply)
    ensures var step := DeliverAppend(AppendMsg(f, args));
            Leads(s, steps + [step], peers') && AppendReplyMsg(f, args, reply) in End(s, steps + [step]).net
  {
    hide RunFrom, End, Leads, HandleAppend;
    Delivering(Then(s, steps, peers), f, args, peers'[f], reply);
    LeadsOn(s, steps, peers, [DeliverAppend(AppendMsg(f, args))], peers');
  }

  lemma AndTake(
    s: System, steps: seq<Step>, peers: seq<Peer>, f: nat, args: AppendArgs, reply: AppendReply, peers': seq<Peer>)
    requires Leads(s, steps, peers) && Formed(peers) && Formed(peers') && |peers'| == |peers| && f < |peers|
    requires args.leader < |peers|
    requires AppendReplyMsg(f, args, reply) in End(s, steps).net && peers' == peers[args.leader := peers'[args.leader]]
    requires HandleAppendReply(peers[args.leader], f, args, reply) == Some(peers'[args.leader])
    ensures Leads(s, steps + [TakeAppendReply(AppendReplyMsg(f, args, reply))], peers')
  {
    hide RunFrom, End, Leads, HandleAppendReply;
    Taking(Then(s, steps, peers), f, args, reply, peers'[args.leader]);
    LeadsOn(s, steps, peers, [TakeAppendReply(AppendReplyMsg(f, args, reply))], peers');
  }

  lemma AndStart(s: System, steps: seq<Step>, peers: seq<Peer>, i: nat, command: Command, peers': seq<Peer>)
    requires Leads(s, steps, peers) && Formed(peers) && Formed(peers') && |peers'| == |peers| && i < |peers|
    requires peers' == peers[i := peers'[i]]
    requires Propose(peers[i], command) == peers'[i]
    ensures var more := steps + [ClientStart(i, command)];
            Leads(s, more, peers') && End(s, steps).net <= End(s, more).net
  {
    hide RunFrom, End, Leads, Propose;
    Starting(Then(s, steps, peers), i, command, peers'[i]);
    var t := Then(Then(s, steps, peers), [ClientStart(i, command)], peers');
    LeadsOn(s, steps, peers, [ClientStart(i, command)], peers');
  }

  lemma AndApply(s: System, steps: seq<Step>, peers: seq<Peer>, i: nat, msgs: seq<ApplyMsg>, peers': seq<Peer>)
    requires Leads(s, steps, peers) && Formed(peers) && Formed(peers') && |peers'| == |peers| && i < |peers|
    requires peers' == peers[i := peers'[i]]
    requires Apply(peers[i]) == Some((peers'[i], msgs))
    ensures Leads(s, steps + [ApplyLog(i)], peers') && Handed(i, msgs) <= End(s, steps + [ApplyLog(i)]).applied
  {
    hide RunFrom, End, Leads, Apply, Handed;
    Applying(Then(s, steps, peers), i, peers'[i], msgs);
    LeadsOn(s, steps, peers, [ApplyLog(i)], peers');
  }

  lemma AndCompact(s: System, steps: seq<Step>, peers: seq<Peer>, i: nat, index: nat, peers': seq<Peer>)
    requires Leads(s, steps, peers) && Formed(peers) && Formed(peers') && |peers'| == |peers| && i < |peers|
    requires peers' == peers[i := peers'[i]]
    requires Compact(peers[i], index) == peers'[i]
    ensures Leads(s, steps + [CompactLog(i, index)], peers')
  {
    hide RunFrom, End, Leads, Compact;
    Compacting(Then(s, steps, peers), i, index, peers'[i]);
    LeadsOn(s, steps, peers, [CompactLog(i, index)], peers');
  }

  lemma AndCampaign(s: System, steps: seq<Step>, peers: seq<Peer>, i: nat, v: nat, w: nat, term: nat, peers': seq<Peer>)
    requires Leads(s, steps, peers) && Formed(peers) && Formed(peers') && |peers| == 3
    requires i < 3 && v < 3 && w < 3 && i != v && w != i && w != v && peers[i].role != Leader
    requires AfterCampaign(peers, i, v) == peers' && StartElection(peers[i]).term == term
    ensures Leads(s, steps + Campaigned(i, v, term), peers')
    ensures End(s, steps).net <= End(s, steps + Campaigned(i, v, term)).net
  {
    hide RunFrom, End, Leads, HandleVote, AfterCampaign, VoteRequest;
    Campaigning(Then(s, steps, peers), i, v, w);
    LeadsOn(s, steps, peers, Campaigned(i, v, term), peers');
  }

  lemma AndAsk(s: System, steps: seq<Step>, peers: seq<Peer>, call: VoteCall, args: VoteArgs, peers': seq<Peer>)
    requires Leads(s, steps, peers) && Formed(peers) && Formed(peers') && |peers'| == |peers| && call.voter < |peers|
    requires call in End(s, steps).votes && End(s, steps).votes[call] == Asked(args)
    requires peers' == peers[call.voter := peers'[call.voter]]
    requires HandleVote(peers[call.voter], args).0 == peers'[call.voter]
    ensures Leads(s, steps + [DeliverVote(call)], peers')
  {
    hide RunFrom, End, Leads, HandleVote;
    Asking(Then(s, steps, peers), call, args, peers'[call.voter]);
    LeadsOn(s, steps, peers, [DeliverVote(call)], peers');
  }

  lemma AndSend(s: System, steps: seq<Step>, peers: seq<Peer>, f: nat, args: AppendArgs)
    requires Leads(s, steps, peers) && Formed(peers) && f < |peers| && args.leader < |peers| && args.leader != f
    requires CheckConsistency(peers[args.leader], f) == SendAppend(args)
    ensures var more := steps + [Check(args.leader, f)];
            Leads(s, more, peers) && AppendMsg(f, args) in End(s, more).net
  {
    hide RunFrom, End, Leads, CheckConsistency;
    Sending(Then(s, steps, peers), args.leader, f, args);
    LeadsOn(s, steps, peers, [Check(args.leader, f)], peers);
  }
}
