/**
 A cluster of Raft peers over a network that loses, delays, reorders and (for
 appends and snapshots) duplicates messages, with crashes and restarts.
 One step is one critical section.
 */
module RaftSystem {
  import opened RaftTypes
  import opened RaftPeer

  /** A vote request in flight; a candidate asks each voter once per term. */
  datatype VoteCall = VoteCall(candidate: nat, term: nat, voter: nat)

  datatype Flight = Asked(args: VoteArgs) | Answered(reply: VoteReply)

  datatype Message =
    | AppendMsg(to: nat, append: AppendArgs)
    | AppendReplyMsg(from: nat, append: AppendArgs, reply: AppendReply)
    | SnapshotMsg(to: nat, snapshot: SnapshotArgs)
    | SnapshotReplyMsg(from: nat, snapshot: SnapshotArgs, term: nat)

  /** An entry a peer handed to its service. */
  datatype Applied = Applied(server: nat, index: nat, command: Command)

  datatype System = System(
    peers: seq<Peer>,
    votes: map<VoteCall, Flight>,
    net: set<Message>,
    applied: set<Applied>)

  datatype Step =
    | Timeout(i: nat)
    | DeliverVote(call: VoteCall)
    | TakeVoteReply(call: VoteCall)
    | ClientStart(i: nat, command: Command)
    | Check(i: nat, to: nat)
    | DeliverAppend(msg: Message)
    | TakeAppendReply(msg: Message)
    | DeliverSnapshot(msg: Message)
    | TakeSnapshotReply(msg: Message)
    | CompactLog(i: nat, index: nat)
    | ApplyLog(i: nat)
    | Crash(i: nat)

  predicate Shaped(s: System) {
    forall i :: 0 <= i < |s.peers| ==> WellFormed(s.peers[i], |s.peers|) && s.peers[i].me == i
  }

  function Init(n: nat): System {
    System(seq(n, i requires 0 <= i => Fresh(i, n)), map[], {}, {})
  }

  predicate Enabled(s: System, step: Step)
    requires Shaped(s)
  {
    match step
    case Timeout(i) => i < |s.peers| && s.peers[i].role != Leader
    case DeliverVote(call) => call in s.votes && s.votes[call].Asked? && call.voter < |s.peers|
    case TakeVoteReply(call) => call in s.votes && s.votes[call].Answered? && call.candidate < |s.peers|
    case ClientStart(i, _) => i < |s.peers|
    case Check(i, to) => i < |s.peers| && to < |s.peers| && to != i
    case DeliverAppend(m) => m in s.net && m.AppendMsg? && m.to < |s.peers|
    case TakeAppendReply(m) =>
      && m in s.net && m.AppendReplyMsg? && m.from < |s.peers| && m.append.leader < |s.peers|
      && HandleAppendReply(s.peers[m.append.leader], m.from, m.append, m.reply).Some?
    case DeliverSnapshot(m) => m in s.net && m.SnapshotMsg? && m.to < |s.peers|
    case TakeSnapshotReply(m) =>
      m in s.net && m.SnapshotReplyMsg? && m.from < |s.peers| && m.snapshot.leader < |s.peers|
    case CompactLog(i, _) => i < |s.peers|
    case ApplyLog(i) => i < |s.peers| && RaftPeer.Apply(s.peers[i]).Some?
    case Crash(i) => i < |s.peers|
  }

  function SetPeer(s: System, i: nat, p: Peer): System
    requires i < |s.peers|
  {
    s.(peers := s.peers[i := p])
  }

  function Ballots(s: System, i: nat, p: Peer): map<VoteCall, Flight>
    requires |p.logs| > 0
  {
    map v: nat | v < |s.peers| && v != i :: VoteCall(i, p.term, v) := Asked(VoteRequest(p))
  }

  function Sent(m: set<Message>, to: nat, probe: Probe): set<Message> {
    match probe
    case Silent => m
    case SendAppend(args) => m + {AppendMsg(to, args)}
    case SendSnapshot(args) => m + {SnapshotMsg(to, args)}
  }

  function Do(s: System, step: Step): System
    requires Shaped(s) && Enabled(s, step)
  {
    match step
    case Timeout(i) =>
      var p := StartElection(s.peers[i]);
      SetPeer(s, i, p).(votes := s.votes + Ballots(s, i, p))
    case DeliverVote(call) =>
      var (p, reply) := HandleVote(s.peers[call.voter], s.votes[call].args);
      SetPeer(s, call.voter, p).(votes := s.votes[call := Answered(reply)])
    case TakeVoteReply(call) =>
      var p := HandleVoteReply(s.peers[call.candidate], s.votes[call].reply);
      SetPeer(s, call.candidate, p).(votes := s.votes - {call})
    case ClientStart(i, command) =>
      SetPeer(s, i, Propose(s.peers[i], command))
    case Check(i, to) =>
      s.(net := Sent(s.net, to, CheckConsistency(s.peers[i], to)))
    case DeliverAppend(m) =>
      var (p, reply) := HandleAppend(s.peers[m.to], m.append);
      SetPeer(s, m.to, p).(net := s.net + {AppendReplyMsg(m.to, m.append, reply)})
    case TakeAppendReply(m) =>
      var l := m.append.leader;
      SetPeer(s, l, HandleAppendReply(s.peers[l], m.from, m.append, m.reply).value)
    case DeliverSnapshot(m) =>
      var (p, term) := HandleSnapshot(s.peers[m.to], m.snapshot);
      SetPeer(s, m.to, p).(net := s.net + {SnapshotReplyMsg(m.to, m.snapshot, term)})
    case TakeSnapshotReply(m) =>
      var l := m.snapshot.leader;
      SetPeer(s, l, HandleSnapshotReply(s.peers[l], m.from, m.snapshot, m.term))
    case CompactLog(i, index) =>
      SetPeer(s, i, Compact(s.peers[i], index))
    case ApplyLog(i) =>
      var (p, msgs) := RaftPeer.Apply(s.peers[i]).value;
      SetPeer(s, i, p).(applied := s.applied + Handed(i, msgs))
    case Crash(i) =>
      SetPeer(s, i, Restart(s.peers[i]))
  }

  function Handed(i: nat, msgs: seq<ApplyMsg>): set<Applied> {
    set k | 0 <= k < |msgs| :: Applied(i, msgs[k].index, msgs[k].command)
  }

  lemma DoSize(s: System, step: Step)
    requires Shaped(s) && Enabled(s, step)
    ensures |Do(s, step).peers| == |s.peers|
  {
  }

  // ---------------------------------------------------------------- runs

  /** `steps` can be taken one after the other from the initial state of `n` servers. */
  ghost predicate IsRun(n: nat, steps: seq<Step>)
    decreases |steps|, 0
  {
    steps != [] ==>
      && IsRun(n, steps[..|steps| - 1])
      && Shaped(After(n, steps[..|steps| - 1]))
      && Enabled(After(n, steps[..|steps| - 1]), steps[|steps| - 1])
  }

  /** The state that the steps lead to. */
  ghost function After(n: nat, steps: seq<Step>): System
    requires IsRun(n, steps)
    decreases |steps|, 1
  {
    if steps == [] then Init(n) else Do(After(n, steps[..|steps| - 1]), steps[|steps| - 1])
  }

  /** The peers never take a snapshot: the service runs with `maxraftstate == -1`. */
  predicate WithoutCompaction(steps: seq<Step>) {
    forall k :: 0 <= k < |steps| ==> !steps[k].CompactLog?
  }
}
