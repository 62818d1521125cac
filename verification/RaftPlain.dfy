/**
 Runs without compaction: no snapshot is ever sent, so next indexes stay within
 the leader's log. Every such run meets the guard of `RaftSafety`.
 */
module RaftPlain {
  import opened RaftTypes
  import opened RaftCore
  import opened RaftPeer
  import opened RaftSystem
  import opened RaftInvariant
  import opened RaftSteps
  import opened RaftSafety
  import opened RaftSafeSteps

  /** A leader's next indexes stay within its log, and its match indexes are acknowledged. */
  ghost predicate IndexesOk(c: Core, p: Peer) {
    && (forall j :: 0 <= j < |p.nextIndex| ==> p.nextIndex[j] <= |p.logs|)
    && (forall j :: 0 <= j < |p.matchIndex| && p.matchIndex[j] > 0 ==>
          p.matchIndex[j] < |p.logs| && AckedTo(c, p.term, j, p.matchIndex[j]))
  }

  ghost predicate PlainPeer(c: Core, p: Peer) {
    p.snapshotIndex == 0 && (p.role == Leader ==> IndexesOk(c, p))
  }

  /** A refusal points at an earlier index than the probe. */
  predicate PlainMessage(m: Message) {
    match m
    case AppendMsg(_, _) => true
    case AppendReplyMsg(_, args, reply) =>
      !reply.success ==> reply.conflictIndex == 0 || (reply.term == args.term && reply.conflictIndex <= args.prevIndex)
    case SnapshotMsg(_, _) => false
    case SnapshotReplyMsg(_, _, _) => false
  }

  ghost predicate PlainInv(s: System, c: Core) {
    && (forall i {:trigger s.peers[i]} :: 0 <= i < |s.peers| ==> PlainPeer(c, s.peers[i]))
    && (forall m {:trigger m in s.net} :: m in s.net ==> PlainMessage(m))
  }

  lemma PlainGrows(c: Core, d: Core, p: Peer)
    requires Extends(c, d) && PlainPeer(c, p)
    ensures PlainPeer(d, p)
  {
    if p.role == Leader {
      forall j | 0 <= j < |p.matchIndex| && p.matchIndex[j] > 0 ensures AckedTo(d, p.term, j, p.matchIndex[j]) {
        assert AckedTo(c, p.term, j, p.matchIndex[j]);
      }
    }
  }

  lemma PlainFrame(s: System, c: Core, t: System, d: Core, i: nat)
    requires PlainInv(s, c) && Extends(c, d) && i < |s.peers| == |t.peers|
    requires forall j :: 0 <= j < |s.peers| && j != i ==> t.peers[j] == s.peers[j]
    requires PlainPeer(d, t.peers[i])
    requires forall m :: m in t.net ==> m in s.net || PlainMessage(m)
    ensures PlainInv(t, d)
  {
    hide Extends, PlainPeer;
    forall j | 0 <= j < |t.peers| ensures PlainPeer(d, t.peers[j]) {
      if j != i {
        PlainGrows(c, d, s.peers[j]);
      }
    }
  }

  /** What most steps do to the peer that takes them. */
  predicate Still(p: Peer, q: Peer) {
    && q.snapshotIndex == p.snapshotIndex
    && (q.role == Leader ==>
          p.role == Leader && q.term == p.term && q.logs == p.logs
          && q.matchIndex == p.matchIndex && q.nextIndex == p.nextIndex)
  }

  lemma StillPlain(c: Core, d: Core, p: Peer, q: Peer)
    requires Extends(c, d) && PlainPeer(c, p) && Still(p, q)
    ensures PlainPeer(d, q)
  {
    hide Extends;
    PlainGrows(c, d, p);
  }

  lemma StillFrame(s: System, c: Core, t: System, d: Core, i: nat)
    requires PlainInv(s, c) && Extends(c, d) && i < |s.peers| == |t.peers|
    requires t.peers == s.peers[i := t.peers[i]] && t.net == s.net && Still(s.peers[i], t.peers[i])
    ensures PlainInv(t, d)
  {
    hide Extends, PlainPeer;
    StillPlain(c, d, s.peers[i], t.peers[i]);
    PlainFrame(s, c, t, d, i);
  }

  // ---------------------------------------------------------------- peers

  lemma VoteStill(p: Peer, args: VoteArgs)
    requires |p.logs| > 0
    ensures Still(p, HandleVote(p, args).0)
  {
  }

  lemma VoteReplyPlain(c: Core, d: Core, i: nat, p: Peer, reply: VoteReply)
    requires PlainPeer(c, p) && Extends(c, d) && |p.logs| > 0 && p.me < |p.matchIndex| && p.me < |p.nextIndex|
    requires p.role == Candidate && HandleVoteReply(p, reply).role == Leader ==>
            Ack(p.term, p.me, |p.logs| - 1) in d.acks
    ensures PlainPeer(d, HandleVoteReply(p, reply))
  {
    var q := HandleVoteReply(p, reply);
    if p.role == Candidate && q.role == Leader {
      assert AckedTo(d, p.term, p.me, |p.logs| - 1);
    } else {
      StillPlain(c, d, p, q);
    }
  }

  lemma ProposePlain(c: Core, d: Core, p: Peer, command: Command)
    requires PlainPeer(c, p) && Extends(c, d) && |p.logs| > 0 && p.me < |p.matchIndex| && p.me < |p.nextIndex|
    requires p.role == Leader ==> Ack(p.term, p.me, |p.logs|) in d.acks
    ensures PlainPeer(d, Propose(p, command))
  {
    hide Extends;
    PlainGrows(c, d, p);
    if p.role == Leader {
      AckIs(d, p.term, p.me, |p.logs|);
    }
  }

  lemma AppendPlain(p: Peer, args: AppendArgs)
    requires |p.logs| > 0 && p.snapshotIndex == 0
    ensures var (q, reply) := HandleAppend(p, args);
            Still(p, q) && PlainMessage(AppendReplyMsg(p.me, args, reply))
  {
    hide Merge, MatchLen;
  }

  /** A refusal of a probe of this term, or of an older one, leaves the next index within the log. */
  lemma ReplyPlain(c: Core, p: Peer, from: nat, args: AppendArgs, reply: AppendReply)
    requires PlainPeer(c, p) && from < |p.nextIndex| && from < |p.matchIndex| && |p.logs| > 0
    requires p.role == Leader && reply.term == p.term && HandleAppendReply(p, from, args, reply).Some?
    requires PlainMessage(AppendReplyMsg(from, args, reply))
    requires args.term == p.term ==> args.prevIndex + |args.entries| < |p.logs|
    requires reply.success ==> args.term == p.term && AckedTo(c, p.term, from, args.prevIndex + |args.entries|)
    ensures PlainPeer(c, HandleAppendReply(p, from, args, reply).value)
  {
    hide AckedTo, Matched;
  }

  // ---------------------------------------------------------------- steps

  lemma ExtendsStep(s: System, c: Core, step: Step)
    requires BaseInv(s, c) && Shaped(s) && Enabled(s, step)
    ensures Extends(c, CoreStep(s, c, step))
  {
    StepKeeps(s, c, step);
  }

  lemma PlainWhole(c: Core, i: nat, p: Peer)
    requires CoreInv(c) && PeerOk(c, i, p) && p.snapshotIndex == 0
    ensures p.logs == c.nodes[i].log && GoodLog(p.logs) && p.term == c.nodes[i].term
  {
    hide InvVotes, InvLeaders, InvAcks;
    assert GoodNode(c, i);
  }

  lemma VoteReplyStepPlain(s: System, c: Core, call: VoteCall)
    requires BaseInv(s, c) && PlainInv(s, c) && Shaped(s) && Enabled(s, TakeVoteReply(call))
    ensures PlainInv(Do(s, TakeVoteReply(call)), CoreStep(s, c, TakeVoteReply(call)))
  {
    hide CoreInv, Extends, PlainPeer, VoteReplyCore, HandleVoteReply, FlightOk, MessageOk, CountOk, PeerOk, Quiet;
    var step, i := TakeVoteReply(call), call.candidate;
    ExtendsStep(s, c, step);
    var t, d, p, reply := Do(s, step), CoreStep(s, c, step), s.peers[i], s.votes[call].reply;
    assert PeerOk(c, i, p) && PlainPeer(c, p);
    WholeLength(c, i, p);
    PlainSnapshot(c, p);
    PlainWhole(c, i, p);
    VoteReplyEffect(c, i, call.voter, p, reply);
    VoteReplyPlain(c, d, i, p, reply);
    PlainFrame(s, c, t, d, i);
  }

  lemma PlainSnapshot(c: Core, p: Peer)
    requires PlainPeer(c, p)
    ensures p.snapshotIndex == 0
  {
  }

  lemma StartStepPlain(s: System, c: Core, i: nat, command: Command)
    requires BaseInv(s, c) && PlainInv(s, c) && Shaped(s) && Enabled(s, ClientStart(i, command))
    ensures PlainInv(Do(s, ClientStart(i, command)), CoreStep(s, c, ClientStart(i, command)))
  {
    hide CoreInv, Extends, PlainPeer, FlightOk, MessageOk, CountOk, PeerOk, Propose;
    var step := ClientStart(i, command);
    ExtendsStep(s, c, step);
    var t, d, p := Do(s, step), CoreStep(s, c, step), s.peers[i];
    assert PeerOk(c, i, p) && PlainPeer(c, p);
    PlainSnapshot(c, p);
    PlainWhole(c, i, p);
    ProposePlain(c, d, p, command);
    PlainFrame(s, c, t, d, i);
  }

  lemma AppendStepPlain(s: System, c: Core, m: Message)
    requires BaseInv(s, c) && PlainInv(s, c) && Shaped(s) && Enabled(s, DeliverAppend(m))
    ensures PlainInv(Do(s, DeliverAppend(m)), CoreStep(s, c, DeliverAppend(m)))
  {
    hide CoreInv, Extends, FlightOk, MessageOk, CountOk, PeerOk, HandleAppend, AppendCore, IndexesOk;
    var step, i := DeliverAppend(m), m.to;
    ExtendsStep(s, c, step);
    var t, d, p := Do(s, step), CoreStep(s, c, step), s.peers[i];
    assert PlainPeer(c, p);
    AppendPlain(p, m.append);
    StillPlain(c, d, p, t.peers[i]);
    PlainFrame(s, c, t, d, i);
  }

  lemma ReplyStepPlain(s: System, c: Core, m: Message)
    requires BaseInv(s, c) && SafeInv(s, c) && PlainInv(s, c) && Shaped(s) && Enabled(s, TakeAppendReply(m))
    ensures PlainInv(Do(s, TakeAppendReply(m)), CoreStep(s, c, TakeAppendReply(m)))
  {
    hide CoreInv, Extends, FlightOk, MessageOk, CountOk, PeerOk, PlainPeer, Piece, PeerSafe, ProbeBound, PlainMessage;
    var step, i := TakeAppendReply(m), m.append.leader;
    ExtendsStep(s, c, step);
    var t, d, p := Do(s, step), CoreStep(s, c, step), s.peers[i];
    assert PeerOk(c, i, p) && PlainPeer(c, p) && PlainMessage(m) && MessageSafe(c, m);
    if p.role == Leader && m.reply.term == p.term {
      PlainSnapshot(c, p);
      PlainWhole(c, i, p);
      WholeLength(c, i, p);
      OwnTermLog(c, i, p);
      PieceTerm(c, m.append);
      if m.reply.success {
        AckIs(c, m.append.term, m.from, m.append.prevIndex + |m.append.entries|);
      }
      ReplyPlain(c, p, m.from, m.append, m.reply);
      PlainFrame(s, c, t, d, i);
    } else {
      StillFrame(s, c, t, d, i);
    }
  }

  lemma OwnTermLog(c: Core, i: nat, p: Peer)
    requires CoreInv(c) && PeerOk(c, i, p) && p.role == Leader
    ensures p.term in c.termLog && c.termLog[p.term] == c.nodes[i].log
  {
    hide CoreInv;
    LeaderBasics(c, i);
  }

  /** Without compaction every step meets the guard and keeps snapshots away. */
  lemma PlainStep(s: System, c: Core, step: Step)
    requires BaseInv(s, c) && SafeInv(s, c) && PlainInv(s, c) && Shaped(s) && Enabled(s, step) && !step.CompactLog?
    ensures Guarded(s, step) && PlainInv(Do(s, step), CoreStep(s, c, step))
  {
    hide CoreInv, Extends, FlightOk, CountOk, MessageOk, SafeInv, HandleVote;
    match step {
      case TakeVoteReply(call) => VoteReplyStepPlain(s, c, call);
      case ClientStart(i, command) => StartStepPlain(s, c, i, command);
      case DeliverAppend(m) => AppendStepPlain(s, c, m);
      case TakeAppendReply(m) => ReplyStepPlain(s, c, m);
      case Check(i, to) => assert PlainPeer(c, s.peers[i]);
      case DeliverVote(call) =>
        ExtendsStep(s, c, step);
        VoteStill(s.peers[call.voter], s.votes[call].args);
        StillFrame(s, c, Do(s, step), CoreStep(s, c, step), call.voter);
      case Timeout(i) =>
        ExtendsStep(s, c, step);
        StillFrame(s, c, Do(s, step), CoreStep(s, c, step), i);
      case Crash(i) =>
        ExtendsStep(s, c, step);
        StillFrame(s, c, Do(s, step), CoreStep(s, c, step), i);
      case ApplyLog(i) =>
        ExtendsSelf(c);
        StillFrame(s, c, Do(s, step), c, i);
      case DeliverSnapshot(m) => assert false;
      case TakeSnapshotReply(m) => assert false;
    }
  }
}
