/** What a leader believes about itself: it has its own log. */
module RaftOwnIndex {
  import opened RaftTypes
  import opened RaftPeer
  import opened RaftSystem
  import opened RaftTheorems

  predicate OwnIndex(p: Peer)
    requires p.me < |p.nextIndex| && p.me < |p.matchIndex|
  {
    p.role == Leader ==> p.nextIndex[p.me] == p.Last() + 1 && p.matchIndex[p.me] == p.Last()
  }

  /** No server sends to itself. */
  predicate ToOther(m: Message) {
    match m
    case AppendMsg(to, args) => to != args.leader
    case AppendReplyMsg(from, args, _) => from != args.leader
    case SnapshotMsg(to, args) => to != args.leader
    case SnapshotReplyMsg(from, args, _) => from != args.leader
  }

  predicate OwnInv(s: System)
    requires Shaped(s)
  {
    && (forall i :: 0 <= i < |s.peers| ==> OwnIndex(s.peers[i]))
    && (forall m :: m in s.net ==> ToOther(m))
  }

  lemma ElectedOwn(p: Peer, reply: VoteReply)
    requires WellFormed(p, |p.nextIndex|) && OwnIndex(p)
    ensures var q := HandleVoteReply(p, reply); q.me < |q.nextIndex| && q.me < |q.matchIndex| && OwnIndex(q)
  {
  }

  lemma ReplyOwn(p: Peer, from: nat, args: AppendArgs, reply: AppendReply)
    requires WellFormed(p, |p.nextIndex|) && from < |p.nextIndex| && from != p.me && OwnIndex(p)
    ensures var q := HandleAppendReply(p, from, args, reply);
            q.Some? ==> q.value.me < |q.value.nextIndex| && q.value.me < |q.value.matchIndex| && OwnIndex(q.value)
  {
    hide Matched;
  }

  lemma ProbeToOther(p: Peer, to: nat)
    requires |p.logs| > 0 && to < |p.nextIndex| && p.nextIndex[to] >= 1 && to != p.me
    ensures var probe := CheckConsistency(p, to);
            && (probe.SendAppend? ==> ToOther(AppendMsg(to, probe.append)))
            && (probe.SendSnapshot? ==> ToOther(SnapshotMsg(to, probe.snapshot)))
  {
  }

  lemma FollowsAfter(p: Peer, args: AppendArgs)
    requires |p.logs| > 0
    ensures var q := HandleAppend(p, args).0; (q.role == Follower || q == p) && q.me == p.me
  {
    hide Merge, RunStart;
  }

  lemma StepOwn(s: System, step: Step)
    requires Shaped(s) && Enabled(s, step) && OwnInv(s) && Shaped(Do(s, step))
    ensures OwnInv(Do(s, step))
  {
    hide HandleAppend, HandleAppendReply, CheckConsistency, Compact, HandleVoteReply, Apply;
    match step
    case Timeout(i) =>
    case DeliverVote(call) =>
    case TakeVoteReply(call) =>
      ElectedOwn(s.peers[call.candidate], s.votes[call].reply);
    case ClientStart(i, command) =>
    case Check(i, to) =>
      ProbeToOther(s.peers[i], to);
    case DeliverAppend(m) =>
      FollowsAfter(s.peers[m.to], m.append);
    case TakeAppendReply(m) =>
      assert ToOther(m);
      ReplyOwn(s.peers[m.append.leader], m.from, m.append, m.reply);
    case DeliverSnapshot(m) =>
    case TakeSnapshotReply(m) =>
      assert ToOther(m);
    case CompactLog(i, index) =>
      CompactOwn(s.peers[i], index);
    case ApplyLog(i) =>
      ApplyOwn(s.peers[i]);
    case Crash(i) =>
  }

  lemma CompactOwn(p: Peer, index: nat)
    requires WellFormed(p, |p.nextIndex|) && OwnIndex(p)
    ensures var q := Compact(p, index); q.me < |q.nextIndex| && q.me < |q.matchIndex| && OwnIndex(q)
  {
  }

  lemma ApplyOwn(p: Peer)
    requires WellFormed(p, |p.nextIndex|) && OwnIndex(p) && Apply(p).Some?
    ensures var q := Apply(p).value.0; q.me < |q.nextIndex| && q.me < |q.matchIndex| && OwnIndex(q)
  {
  }

  lemma {:induction false} RunOwn(n: nat, steps: seq<Step>)
    requires IsRun(n, steps) && Shaped(After(n, steps))
    ensures OwnInv(After(n, steps))
    decreases |steps|
  {
    hide OwnInv, Do, Enabled, Shaped;
    if steps == [] {
      InitOwn(n);
    } else {
      var before, step := steps[..|steps| - 1], steps[|steps| - 1];
      RunOwn(n, before);
      StepOwn(After(n, before), step);
    }
  }

  lemma InitOwn(n: nat)
    ensures Shaped(Init(n)) && OwnInv(Init(n))
  {
  }

  /** In every run, a leader's indexes for itself are those of its whole log. */
  lemma LeaderKnowsItself(n: nat, steps: seq<Step>, i: nat)
    requires IsRun(n, steps) && i < n && PeerAt(n, steps, |steps|, i).role == Leader
    ensures var p := PeerAt(n, steps, |steps|, i); p.nextIndex[i] == p.Last() + 1 && p.matchIndex[i] == p.Last()
  {
    hide IsRun, CoreAfter;
    RunSize(n, steps);
    assert steps[..|steps|] == steps;
    var s := After(n, steps);
    forall j | 0 <= j < |s.peers| ensures WellFormed(s.peers[j], |s.peers|) && s.peers[j].me == j {
      assert s.peers[j] == PeerAt(n, steps, |steps|, j);
    }
    RunOwn(n, steps);
    assert OwnIndex(s.peers[i]);
  }
}
