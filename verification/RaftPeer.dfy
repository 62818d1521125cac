/**
 One critical section of a Raft peer, as a function from the state of the peer
 to its next state and the message it sends.  `RaftServer` proves that the
 imperative handlers compute these functions; `RaftSystem` runs a cluster of them.
 */
module RaftPeer {
  import opened RaftTypes

  datatype Peer = Peer(
    me: nat,
    term: nat,
    votedFor: int,
    snapshotIndex: nat,
    logs: seq<Entry>,
    commitIndex: nat,
    lastApplied: nat,
    nextIndex: seq<nat>,
    matchIndex: seq<nat>,
    role: Role,
    voteCount: nat)
  {
    /** Global index of the last entry. */
    function Last(): int { snapshotIndex + |logs| - 1 }
  }

  predicate WellFormed(p: Peer, n: nat) {
    && |p.logs| > 0 && p.me < n
    && |p.nextIndex| == n && |p.matchIndex| == n
    && forall i :: 0 <= i < n ==> p.nextIndex[i] >= 1
  }

  datatype VoteArgs = VoteArgs(term: nat, candidate: nat, lastIndex: nat, lastTerm: nat)
  datatype VoteReply = VoteReply(term: nat, granted: bool)

  datatype AppendArgs = AppendArgs(
    term: nat, leader: nat, prevIndex: nat, prevTerm: nat, entries: seq<Entry>, leaderCommit: nat)
  datatype AppendReply = AppendReply(term: nat, success: bool, conflictIndex: nat)

  datatype SnapshotArgs = SnapshotArgs(term: nat, leader: nat, lastIndex: nat, lastTerm: nat)

  datatype Probe = Silent | SendAppend(append: AppendArgs) | SendSnapshot(snapshot: SnapshotArgs)

  datatype ApplyMsg = ApplyMsg(index: nat, command: Command)

  /** A peer that has never run, or one restarted from what it last saved. */
  function Boot(me: nat, n: nat, term: nat, votedFor: int, snapshotIndex: nat, logs: seq<Entry>): Peer {
    Peer(me, term, votedFor, snapshotIndex, logs, 0, 0, seq(n, _ => 1), seq(n, _ => 0), Follower, 0)
  }

  function Fresh(me: nat, n: nat): Peer { Boot(me, n, 0, -1, 0, [DUMMY]) }

  /** A crash keeps the term, the vote, the snapshot index and the log. */
  function Restart(p: Peer): Peer {
    Boot(p.me, |p.nextIndex|, p.term, p.votedFor, p.snapshotIndex, p.logs)
  }

  function BeFollower(p: Peer, term: nat): Peer {
    p.(term := term, votedFor := -1, role := Follower, voteCount := 0)
  }

  // ---------------------------------------------------------------- elections

  /** The election timer of a peer that is not leader fired. */
  function StartElection(p: Peer): Peer {
    p.(term := p.term + 1, votedFor := p.me, role := Candidate, voteCount := 1)
  }

  function VoteRequest(p: Peer): VoteArgs
    requires |p.logs| > 0
  {
    VoteArgs(p.term, p.me, p.Last(), p.logs[|p.logs| - 1].term)
  }

  predicate CandidateUpToDate(p: Peer, args: VoteArgs)
    requires |p.logs| > 0
  {
    var lastTerm := p.logs[|p.logs| - 1].term;
    args.lastTerm > lastTerm || (args.lastTerm == lastTerm && args.lastIndex >= p.Last())
  }

  function HandleVote(p: Peer, args: VoteArgs): (Peer, VoteReply)
    requires |p.logs| > 0
  {
    if args.term < p.term then
      (p, VoteReply(p.term, false))
    else
      var q := if args.term > p.term then BeFollower(p, args.term) else p;
      if (q.votedFor == -1 || q.votedFor == args.candidate) && CandidateUpToDate(q, args) then
        (q.(votedFor := args.candidate), VoteReply(args.term, true))
      else
        (q, VoteReply(args.term, false))
  }

  function BecomeLeader(p: Peer): Peer
    requires |p.logs| > 0 && p.me < |p.matchIndex|
  {
    p.(role := Leader,
       nextIndex := seq(|p.nextIndex|, _ => p.Last() + 1),
       matchIndex := seq(|p.matchIndex|, i => if i == p.me then p.Last() else 0))
  }

  function HandleVoteReply(p: Peer, reply: VoteReply): Peer
    requires |p.logs| > 0 && p.me < |p.matchIndex|
  {
    if p.role != Candidate || reply.term < p.term then
      p
    else if reply.term > p.term then
      BeFollower(p, reply.term)
    else if !reply.granted then
      p
    else
      var q := p.(voteCount := p.voteCount + 1);
      if q.voteCount > |p.nextIndex| / 2 then BecomeLeader(q) else q
  }

  // ---------------------------------------------------------------- replication

  /** Appends a client command at the leader. */
  function Propose(p: Peer, command: Command): Peer
    requires |p.logs| > 0 && p.me < |p.nextIndex| && p.me < |p.matchIndex|
  {
    if p.role != Leader then
      p
    else
      var index := p.snapshotIndex + |p.logs|;
      p.(logs := p.logs + [Entry(index, p.term, command)],
         nextIndex := p.nextIndex[p.me := index + 1],
         matchIndex := p.matchIndex[p.me := index])
  }

  /** What the leader sends to `to`: its log from `nextIndex[to]` on, or its snapshot if that is gone. */
  function CheckConsistency(p: Peer, to: nat): Probe
    requires |p.logs| > 0 && to < |p.nextIndex| && p.nextIndex[to] >= 1
  {
    if p.role != Leader then
      Silent
    else
      var prev := p.nextIndex[to] - 1;
      if prev < p.snapshotIndex then
        SendSnapshot(SnapshotArgs(p.term, p.me, p.snapshotIndex, p.logs[0].term))
      else
        var local := Min(prev - p.snapshotIndex, |p.logs| - 1);
        SendAppend(AppendArgs(p.term, p.me, prev, p.logs[local].term, p.logs[local + 1..], p.commitIndex))
  }

  /** First position of the run of equal terms that position `i` belongs to. */
  function RunStart(logs: seq<Entry>, i: nat): (r: nat)
    requires i < |logs|
    ensures r <= i && logs[r].term == logs[i].term
  {
    if i == 0 || logs[i - 1].term != logs[i].term then i else RunStart(logs, i - 1)
  }

  /** How many of `entries` have the terms found in `logs` from position `at` on. */
  function MatchLen(logs: seq<Entry>, at: nat, entries: seq<Entry>): (m: nat)
    requires at <= |logs|
    ensures m <= |entries| && at + m <= |logs|
    decreases |entries|
  {
    if entries == [] || at == |logs| || logs[at].term != entries[0].term then 0
    else 1 + MatchLen(logs, at + 1, entries[1..])
  }

  /** Overwrites from the first conflicting entry; a log that already holds them all keeps its tail. */
  function Merge(logs: seq<Entry>, at: nat, entries: seq<Entry>): (r: seq<Entry>)
    requires at <= |logs|
    ensures |r| >= at + |entries|
  {
    var m := MatchLen(logs, at, entries);
    if m == |entries| then logs else logs[..at + m] + entries[m..]
  }

  /** The peer after it has accepted that `args` comes from the leader of `args.term`. */
  function Heed(p: Peer, term: nat): Peer {
    if p.term < term then BeFollower(p, term) else p.(role := Follower)
  }

  function AppendCase(q: Peer, args: AppendArgs): AppendReply
    requires |q.logs| > 0
  {
    var local := args.prevIndex - q.snapshotIndex;
    if args.prevIndex < q.snapshotIndex || local >= |q.logs| then
      AppendReply(args.term, false, q.Last() + 1)
    else if q.logs[local].term != args.prevTerm then
      AppendReply(args.term, false, q.snapshotIndex + RunStart(q.logs, local))
    else
      AppendReply(args.term, true, 0)
  }

  /** Stores the entries that follow a matching one and moves the commit index. */
  function Store(q: Peer, args: AppendArgs): Peer
    requires q.snapshotIndex <= args.prevIndex < q.snapshotIndex + |q.logs|
  {
    var r := q.(logs := Merge(q.logs, args.prevIndex - q.snapshotIndex + 1, args.entries));
    if args.leaderCommit > q.commitIndex then r.(commitIndex := Min(args.leaderCommit, r.Last())) else r
  }

  function HandleAppend(p: Peer, args: AppendArgs): (Peer, AppendReply)
    requires |p.logs| > 0
  {
    if args.term < p.term then
      (p, AppendReply(p.term, false, 0))
    else
      var q := Heed(p, args.term);
      var reply := AppendCase(q, args);
      (if reply.success then Store(q, args) else q, reply)
  }

  /** Servers whose match index has reached `m`. */
  function Matched(matchIndex: seq<nat>, m: nat): set<nat> {
    set i: nat | i < |matchIndex| && matchIndex[i] >= m
  }

  /** `None`: the peer reads its log out of range and the process dies. */
  function HandleAppendReply(p: Peer, from: nat, args: AppendArgs, reply: AppendReply): Option<Peer>
    requires from < |p.nextIndex| && from < |p.matchIndex|
  {
    if p.role != Leader || reply.term < p.term then
      Some(p)
    else if reply.term > p.term then
      Some(BeFollower(p, reply.term))
    else if !reply.success then
      Some(p.(nextIndex := p.nextIndex[from := Max(1, reply.conflictIndex)]))
    else
      var m := args.prevIndex + |args.entries|;
      if m <= p.matchIndex[from] then
        Some(p)
      else
        var q := p.(matchIndex := p.matchIndex[from := m], nextIndex := p.nextIndex[from := m + 1]);
        var local := m - p.snapshotIndex;
        if m <= p.commitIndex then Some(q)
        else if local < 0 || local >= |p.logs| then None
        else if p.logs[local].term == p.term && |Matched(q.matchIndex, m)| > |p.nextIndex| / 2 then
          Some(q.(commitIndex := m))
        else Some(q)
  }

  // ---------------------------------------------------------------- compaction

  /** Keeps the log after `index`, with a placeholder for the entry at `index`. */
  function Truncate(logs: seq<Entry>, local: nat, index: nat, term: nat): seq<Entry> {
    [Entry(index, term, NoCommand)] + (if local < |logs| then logs[local + 1..] else [])
  }

  function Compact(p: Peer, index: nat): Peer {
    if index <= p.snapshotIndex || index - p.snapshotIndex >= |p.logs| then
      p
    else
      var local := index - p.snapshotIndex;
      p.(logs := Truncate(p.logs, local, index, p.logs[local].term), snapshotIndex := index)
  }

  function HandleSnapshot(p: Peer, args: SnapshotArgs): (Peer, nat) {
    if args.term < p.term then
      (p, p.term)
    else
      var q := Heed(p, args.term);
      if args.lastIndex <= q.snapshotIndex || args.lastIndex <= q.commitIndex then
        (q, args.term)
      else
        var local := args.lastIndex - q.snapshotIndex;
        var kept := local < |q.logs| && q.logs[local].term == args.lastTerm;
        (q.(logs := Truncate(if kept then q.logs else [], local, args.lastIndex, args.lastTerm),
            snapshotIndex := args.lastIndex),
         args.term)
  }

  function HandleSnapshotReply(p: Peer, from: nat, args: SnapshotArgs, term: nat): Peer
    requires from < |p.nextIndex| && from < |p.matchIndex|
  {
    if p.role != Leader || p.term > term then
      p
    else if p.term < term then
      BeFollower(p, term)
    else if args.lastIndex >= p.nextIndex[from] then
      p.(nextIndex := p.nextIndex[from := args.lastIndex + 1], matchIndex := p.matchIndex[from := args.lastIndex])
    else
      p
  }

  // ---------------------------------------------------------------- applying

  /** First index the apply loop delivers: it skips what the snapshot covers. */
  function FirstToApply(p: Peer): nat { Max(p.lastApplied, p.snapshotIndex) + 1 }

  /** `None`: the commit index lies beyond the log. */
  function Apply(p: Peer): Option<(Peer, seq<ApplyMsg>)> {
    var first := FirstToApply(p);
    if p.commitIndex < first then
      Some((p, []))
    else if p.commitIndex > p.Last() then
      None
    else
      Some((p.(lastApplied := p.commitIndex),
            seq(p.commitIndex - first + 1,
                i requires 0 <= i < p.commitIndex - first + 1 =>
                  ApplyMsg(first + i, p.logs[first + i - p.snapshotIndex].command))))
  }
}
