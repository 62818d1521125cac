/**
 The Raft peer as it runs: an object whose methods update its fields under one
 lock.  Every method computes the function of `RaftPeer` it is named after, and
 leaves on disk what it has in memory.
 */
module RaftServer {
  import opened RaftTypes
  import opened RaftPeer

  /** The bytes of a snapshot of the service, which Raft keeps and passes on. */
  type Payload = seq<bv8>

  /** What a peer writes to its persister: its own state, and the snapshot that goes with it. */
  datatype Durable = Durable(term: nat, votedFor: int, snapshotIndex: nat, logs: seq<Entry>, snapshot: Payload)

  /** What a persister that was never written to restores. */
  const BLANK := Durable(0, -1, 0, [DUMMY], [])

  /** A snapshot handed to the service, if there is one. */
  function Notice(snapshot: Payload): Option<Payload> {
    if |snapshot| < 1 then None else Some(snapshot)
  }

  class Raft {
    const me: nat
    const n: nat
    var currentTerm: nat
    var votedFor: int
    var snapshotIndex: nat
    var logs: seq<Entry>
    var commitIndex: nat
    var lastApplied: nat
    const nextIndex: array<nat>
    const matchIndex: array<nat>
    var role: Role
    var voteCount: nat
    var saved: Durable

    ghost predicate Shape()
      reads this, nextIndex, matchIndex
    {
      && me < n && |logs| > 0
      && nextIndex.Length == n && matchIndex.Length == n && nextIndex != matchIndex
      && forall i :: 0 <= i < n ==> nextIndex[i] >= 1
    }

    /** The disk holds the term, the vote, the snapshot index and the log. */
    ghost predicate Valid()
      reads this, nextIndex, matchIndex
    {
      Shape() && saved == Durable(currentTerm, votedFor, snapshotIndex, logs, saved.snapshot)
    }

    ghost function State(): Peer
      reads this, nextIndex, matchIndex
    {
      Peer(me, currentTerm, votedFor, snapshotIndex, logs, commitIndex, lastApplied,
           nextIndex[..], matchIndex[..], role, voteCount)
    }

    /** Starts a peer from a persister; the service is to be given `Notice(disk.snapshot)`. */
    constructor (me: nat, n: nat, disk: Durable)
      requires me < n && |disk.logs| > 0
      ensures Valid() && fresh(nextIndex) && fresh(matchIndex) && saved == disk
      ensures State() == Boot(me, n, disk.term, disk.votedFor, disk.snapshotIndex, disk.logs)
      ensures disk == BLANK ==> State() == Fresh(me, n)
    {
      this.me, this.n := me, n;
      currentTerm, votedFor, snapshotIndex, logs := disk.term, disk.votedFor, disk.snapshotIndex, disk.logs;
      commitIndex, lastApplied, role, voteCount, saved := 0, 0, Follower, 0, disk;
      nextIndex := new nat[n](_ => 1);
      matchIndex := new nat[n](_ => 0);
      new;
      assert nextIndex[..] == seq(n, _ => 1);
      assert matchIndex[..] == seq(n, _ => 0);
    }

    /** Saves the state and keeps the snapshot. */
    method Persist()
      modifies `saved
      ensures saved == Durable(currentTerm, votedFor, snapshotIndex, logs, old(saved.snapshot))
    {
      saved := Durable(currentTerm, votedFor, snapshotIndex, logs, saved.snapshot);
    }

    /** Saves the state together with a new snapshot. */
    method PersistWith(snapshot: Payload)
      modifies `saved
      ensures saved == Durable(currentTerm, votedFor, snapshotIndex, logs, snapshot)
    {
      saved := Durable(currentTerm, votedFor, snapshotIndex, logs, snapshot);
    }

    method GoBackToFollower(term: nat)
      requires Shape()
      modifies `currentTerm, `votedFor, `role, `voteCount
      ensures State() == BeFollower(old(State()), term)
    {
      currentTerm := term;
      votedFor := -1;
      role := Follower;
      voteCount := 0;
    }

    // -------------------------------------------------------------- elections

    method BroadcastVote() returns (args: VoteArgs, asks: bool)
      requires Valid()
      modifies this
      ensures Valid() && saved.snapshot == old(saved.snapshot)
      ensures asks == (old(role) != Leader)
      ensures !asks ==> State() == old(State())
      ensures asks ==> State() == StartElection(old(State())) && args == VoteRequest(State())
    {
      var local := |logs| - 1;
      asks := role != Leader;
      if asks {
        currentTerm := currentTerm + 1;
        role := Candidate;
        votedFor := me;
        voteCount := 1;
        Persist();
      }
      args := VoteArgs(currentTerm, me, snapshotIndex + local, logs[local].term);
    }

    method RequestVote(args: VoteArgs) returns (reply: VoteReply)
      requires Valid()
      modifies this
      ensures Valid() && (State(), reply) == HandleVote(old(State()), args)
      ensures saved.snapshot == old(saved.snapshot)
    {
      if args.term < currentTerm {
        return VoteReply(currentTerm, false);
      }
      var change := false;
      reply := VoteReply(args.term, false);
      if args.term > currentTerm {
        GoBackToFollower(args.term);
        change := true;
      }
      if votedFor == -1 || votedFor == args.candidate {
        var local := |logs| - 1;
        var lastTerm, lastIndex := logs[local].term, snapshotIndex + local;
        if args.lastTerm > lastTerm || (args.lastTerm == lastTerm && args.lastIndex >= lastIndex) {
          if votedFor == -1 {
            votedFor := args.candidate;
            change := true;
          }
          reply := reply.(granted := true);
        }
      }
      if change {
        Persist();
      }
    }

    method ProcessVoteReply(reply: VoteReply)
      requires Valid()
      modifies this, nextIndex, matchIndex
      ensures Valid() && State() == HandleVoteReply(old(State()), reply)
      ensures saved.snapshot == old(saved.snapshot)
    {
      if role != Candidate || reply.term < currentTerm {
        return;
      }
      if reply.term > currentTerm {
        GoBackToFollower(reply.term);
        Persist();
        return;
      }
      if reply.granted {
        voteCount := voteCount + 1;
        if voteCount > n / 2 {
          InitLeader();
        }
      }
    }

    method InitLeader()
      requires Valid()
      modifies `role, nextIndex, matchIndex
      ensures Valid() && State() == BecomeLeader(old(State()))
    {
      role := Leader;
      var last := snapshotIndex + |logs| - 1;
      for i := 0 to n
        invariant Shape() && role == Leader
        invariant forall k :: 0 <= k < i ==> nextIndex[k] == last + 1 && matchIndex[k] == 0
      {
        nextIndex[i] := last + 1;
        matchIndex[i] := 0;
      }
      matchIndex[me] := nextIndex[me] - 1;
      ghost var p := BecomeLeader(old(State()));
      assert nextIndex[..] == p.nextIndex;
      assert matchIndex[..] == p.matchIndex;
    }

    // -------------------------------------------------------------- replication

    method Start(command: Command) returns (index: int, term: int, isLeader: bool)
      requires Valid()
      modifies this, nextIndex, matchIndex
      ensures Valid() && State() == Propose(old(State()), command)
      ensures saved.snapshot == old(saved.snapshot)
      ensures isLeader == (old(role) == Leader)
      ensures isLeader ==> index == State().Last() && term == currentTerm
      ensures !isLeader ==> index == -1 && term == -1
    {
      index, term, isLeader := -1, -1, false;
      if role == Leader {
        logs := logs + [Entry(snapshotIndex + |logs|, currentTerm, command)];
        index := snapshotIndex + |logs| - 1;
        term := currentTerm;
        isLeader := true;
        nextIndex[me] := index + 1;
        matchIndex[me] := index;
        Persist();
      }
    }

    /** With a snapshot goes the one on disk. */
    method CheckConsistency(to: nat) returns (probe: Probe, payload: Payload)
      requires Valid() && to < n
      ensures probe == RaftPeer.CheckConsistency(State(), to)
      ensures payload == if probe.SendSnapshot? then saved.snapshot else []
    {
      payload := [];
      if role != Leader {
        probe := Silent;
        return;
      }
      var prev := nextIndex[to] - 1;
      if prev < snapshotIndex {
        probe := SendSnapshot(SnapshotArgs(currentTerm, me, snapshotIndex, logs[0].term));
        payload := saved.snapshot;
      } else {
        var local := Min(prev - snapshotIndex, |logs| - 1);
        probe := SendAppend(AppendArgs(currentTerm, me, prev, logs[local].term, logs[local + 1..], commitIndex));
      }
    }

    /** Walks back to the first entry of the conflicting term. */
    method ConflictStart(local: nat) returns (i: nat)
      requires Shape() && local < |logs|
      ensures i == RunStart(logs, local)
    {
      i := local;
      var t := logs[i].term;
      while i > 0
        invariant i <= local && logs[i].term == t && RunStart(logs, i) == RunStart(logs, local)
      {
        if logs[i - 1].term != t {
          break;
        }
        i := i - 1;
      }
    }

    /** Walks forward over the entries already stored and replaces the rest. */
    method MergeEntries(at: nat, entries: seq<Entry>) returns (change: bool)
      requires Shape() && 0 < at <= |logs|
      modifies `logs
      ensures Shape() && logs == Merge(old(logs), at, entries) && (!change ==> logs == old(logs))
    {
      var i, j := at, 0;
      while i < |logs| && j < |entries|
        invariant at <= i <= |logs| && j == i - at && j <= |entries| && logs == old(logs)
        invariant MatchLen(logs, at, entries) == j + MatchLen(logs, i, entries[j..])
      {
        if logs[i].term != entries[j].term {
          break;
        }
        assert entries[j..][1..] == entries[j + 1..];
        i, j := i + 1, j + 1;
      }
      change := j < |entries|;
      if change {
        logs := logs[..i] + entries[j..];
      }
    }

    /** The three conflict cases, or the merge and the commit rule. */
    method Reconcile(args: AppendArgs) returns (reply: AppendReply, change: bool)
      requires Shape()
      modifies `logs, `commitIndex
      ensures Shape() && reply == AppendCase(old(State()), args)
      ensures State() == if reply.success then Store(old(State()), args) else old(State())
      ensures !change ==> logs == old(logs)
    {
      hide Merge, RunStart;
      change := false;
      var lastLocal := |logs| - 1;
      var local := args.prevIndex - snapshotIndex;
      if args.prevIndex < snapshotIndex || local > lastLocal {
        reply := AppendReply(args.term, false, snapshotIndex + lastLocal + 1);
      } else if logs[local].term != args.prevTerm {
        var i := ConflictStart(local);
        reply := AppendReply(args.term, false, snapshotIndex + i);
      } else {
        reply := AppendReply(args.term, true, 0);
        change := MergeEntries(local + 1, args.entries);
        if args.leaderCommit > commitIndex {
          commitIndex := Min(args.leaderCommit, snapshotIndex + |logs| - 1);
        }
      }
    }

    method AppendEntries(args: AppendArgs) returns (reply: AppendReply)
      requires Valid()
      modifies this
      ensures Valid() && (State(), reply) == HandleAppend(old(State()), args)
      ensures saved.snapshot == old(saved.snapshot)
    {
      hide AppendCase, Store;
      if args.term < currentTerm {
        return AppendReply(currentTerm, false, 0);
      }
      var change := false;
      if currentTerm < args.term {
        GoBackToFollower(args.term);
        change := true;
      } else if role != Follower {
        role := Follower;
      }
      var merged: bool;
      reply, merged := Reconcile(args);
      if change || merged {
        Persist();
      }
    }

    /** How many peers have reached `m`. */
    method CountMatched(m: nat) returns (count: nat)
      requires Shape()
      ensures count == |Matched(matchIndex[..], m)|
    {
      count := 0;
      for i := 0 to n
        invariant count == |Matched(matchIndex[..i], m)|
      {
        var before, after := Matched(matchIndex[..i], m), Matched(matchIndex[..i + 1], m);
        if matchIndex[i] >= m {
          assert after == before + {i};
          count := count + 1;
        } else {
          assert after == before;
        }
      }
      assert matchIndex[..n] == matchIndex[..];
    }

    /** `!alive`: the index expression is out of range and the process dies here. */
    method ProcessAppendReply(from: nat, args: AppendArgs, reply: AppendReply) returns (alive: bool)
      requires Valid() && from < n
      modifies this, nextIndex, matchIndex
      ensures alive == HandleAppendReply(old(State()), from, args, reply).Some?
      ensures alive ==> Valid() && State() == HandleAppendReply(old(State()), from, args, reply).value
      ensures saved.snapshot == old(saved.snapshot)
    {
      alive := true;
      if role != Leader || reply.term < currentTerm {
        return;
      }
      if currentTerm < reply.term {
        GoBackToFollower(reply.term);
        Persist();
        return;
      }
      if reply.success {
        var m := args.prevIndex + |args.entries|;
        if m > matchIndex[from] {
          matchIndex[from] := m;
          nextIndex[from] := m + 1;
          var local := m - snapshotIndex;
          if m > commitIndex {
            if local < 0 || local >= |logs| {
              alive := false;
              return;
            }
            if logs[local].term == currentTerm {
              var count := CountMatched(m);
              if count > n / 2 {
                commitIndex := m;
              }
            }
          }
        }
      } else {
        nextIndex[from] := Max(1, reply.conflictIndex);
      }
    }

    // -------------------------------------------------------------- compaction

    /** The snapshot on disk is replaced exactly when the snapshot index moves, and moves forward. */
    method Compact(index: nat, snapshot: Payload)
      requires Valid()
      modifies this
      ensures Valid() && State() == RaftPeer.Compact(old(State()), index)
      ensures saved.snapshot == if snapshotIndex > old(snapshotIndex) then snapshot else old(saved.snapshot)
      ensures snapshotIndex >= old(snapshotIndex)
    {
      if index <= snapshotIndex {
        return;
      }
      var local := index - snapshotIndex;
      if local >= |logs| {
        return;
      }
      logs := [Entry(index, logs[local].term, NoCommand)] + logs[local + 1..];
      snapshotIndex := index;
      PersistWith(snapshot);
    }

    /** The service is told of the snapshot exactly when it is installed, and not of an empty one. */
    method InstallSnapshot(args: SnapshotArgs, snapshot: Payload) returns (term: nat, notice: Option<Payload>)
      requires Valid()
      modifies this
      ensures Valid() && (State(), term) == HandleSnapshot(old(State()), args)
      ensures saved.snapshot == if snapshotIndex > old(snapshotIndex) then snapshot else old(saved.snapshot)
      ensures notice == if snapshotIndex > old(snapshotIndex) then Notice(snapshot) else None
      ensures snapshotIndex >= old(snapshotIndex)
    {
      notice := None;
      if args.term < currentTerm {
        term := currentTerm;
        return;
      }
      var change := false;
      term := args.term;
      if currentTerm < args.term {
        GoBackToFollower(args.term);
        change := true;
      } else if role != Follower {
        role := Follower;
      }
      if args.lastIndex <= snapshotIndex || args.lastIndex <= commitIndex {
        if change {
          Persist();
        }
        return;
      }
      var local := args.lastIndex - snapshotIndex;
      var tail := [];
      if local < |logs| && logs[local].term == args.lastTerm {
        tail := logs[local + 1..];
      }
      logs := [Entry(args.lastIndex, args.lastTerm, NoCommand)] + tail;
      snapshotIndex := args.lastIndex;
      PersistWith(snapshot);
      notice := Notice(snapshot);
    }

    method ProcessSnapshotReply(from: nat, args: SnapshotArgs, term: nat)
      requires Valid() && from < n
      modifies this, nextIndex, matchIndex
      ensures Valid() && State() == HandleSnapshotReply(old(State()), from, args, term)
      ensures saved.snapshot == old(saved.snapshot)
    {
      if role != Leader || currentTerm > term {
        return;
      }
      if currentTerm < term {
        GoBackToFollower(term);
        Persist();
        return;
      }
      if args.lastIndex >= nextIndex[from] {
        nextIndex[from] := args.lastIndex + 1;
        matchIndex[from] := args.lastIndex;
      }
    }

    // -------------------------------------------------------------- applying

    /** The messages are those of the entries from `first` on. */
    ghost predicate Delivers(msgs: seq<ApplyMsg>, first: nat)
      reads this
    {
      forall k :: 0 <= k < |msgs| ==>
        0 <= first + k - snapshotIndex < |logs| &&
        msgs[k] == ApplyMsg(first + k, logs[first + k - snapshotIndex].command)
    }

    /**
     Delivers the committed entries not yet delivered, skipping what the snapshot
     covers. `!alive`: the commit index lies beyond the log, and the process dies
     after it has delivered the entries that are there.
     */
    method ApplyCommitted() returns (msgs: seq<ApplyMsg>, alive: bool)
      requires Valid()
      modifies `lastApplied
      ensures Valid() && alive == RaftPeer.Apply(old(State())).Some?
      ensures alive ==> RaftPeer.Apply(old(State())) == Some((State(), msgs))
      ensures !alive ==>
                var first, last := FirstToApply(old(State())), State().Last();
                && Delivers(msgs, first) && |msgs| == Max(0, last - first + 1)
                && lastApplied == if msgs == [] then old(lastApplied) else last
    {
      msgs, alive := [], true;
      ghost var first := FirstToApply(State());
      var i, end := lastApplied + 1, commitIndex;
      while i <= end
        invariant Valid()
        invariant i == old(lastApplied) + 1 || i == first + |msgs|
        invariant |msgs| == 0 ==> lastApplied == old(lastApplied)
        invariant |msgs| > 0 ==> i == first + |msgs| && lastApplied == i - 1 <= end
        invariant i > end ==> first + |msgs| > end
        invariant Delivers(msgs, first) && first + |msgs| <= Max(first, State().Last() + 1)
        decreases end - i
      {
        if i <= snapshotIndex {
          i := snapshotIndex;
        } else {
          if i - snapshotIndex >= |logs| {
            alive := false;
            return;
          }
          msgs := msgs + [ApplyMsg(i, logs[i - snapshotIndex].command)];
          lastApplied := i;
        }
        i := i + 1;
      }
      if first <= end {
        assert msgs == RaftPeer.Apply(old(State())).value.1;
      }
    }
  }

  /** A crash and a restart: the new object reads nothing of the old one but its disk. */
  method Recover(crashed: Raft) returns (r: Raft)
    requires crashed.Valid()
    ensures fresh(r) && r.Valid() && r.State() == Restart(crashed.State()) && r.saved == crashed.saved
  {
    r := new Raft(crashed.me, crashed.n, crashed.saved);
  }
}
