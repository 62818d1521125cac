/** Raft decides nothing of its own: every entry of every log holds a command that some client started. */
module RaftValidity {
  import opened RaftTypes
  import opened RaftCore
  import opened RaftPeer
  import opened RaftCompaction
  import opened RaftSystem
  import opened RaftInvariant
  import opened RaftSteps
  import opened RaftTheorems
  import opened RaftCommit

  /** The command a step hands to a peer. */
  function StartedBy(step: Step): set<Command> {
    match step
    case ClientStart(_, command) => {command}
    case _ => {}
  }

  /** The commands that clients have started. */
  function Started(steps: seq<Step>): set<Command>
    decreases |steps|
  {
    if steps == [] then {} else Started(steps[..|steps| - 1]) + StartedBy(steps[|steps| - 1])
  }

  lemma {:induction false} StartedStays(steps: seq<Step>, k: nat)
    requires k <= |steps|
    ensures Started(steps[..k]) <= Started(steps)
    decreases |steps|
  {
    if k < |steps| {
      var before := steps[..|steps| - 1];
      assert before[..k] == steps[..k];
      StartedStays(before, k);
    } else {
      assert steps[..k] == steps;
    }
  }

  /** All entries but the first hold started commands. */
  predicate CleanLog(log: seq<Entry>, started: set<Command>) {
    forall k :: 1 <= k < |log| ==> log[k].command in started
  }

  ghost predicate Clean(c: Core, started: set<Command>) {
    && (forall i :: 0 <= i < |c.nodes| ==> CleanLog(c.nodes[i].log, started))
    && (forall t :: t in c.termLog ==> CleanLog(c.termLog[t], started))
  }

  /** Server `i` may change its log to a clean one, and one term may get a clean log. */
  lemma CleanMoves(c: Core, d: Core, i: nat, started: set<Command>, all: set<Command>)
    requires Clean(c, started) && started <= all && |d.nodes| == |c.nodes| && i < |c.nodes|
    requires forall j :: 0 <= j < |c.nodes| && j != i ==> d.nodes[j] == c.nodes[j]
    requires CleanLog(d.nodes[i].log, all)
    requires forall t :: t in d.termLog ==>
            (t in c.termLog && d.termLog[t] == c.termLog[t]) || d.termLog[t] == d.nodes[i].log
    ensures Clean(d, all)
  {
  }

  lemma HeedClean(c: Core, i: nat, term: nat, started: set<Command>)
    requires Clean(c, started) && i < |c.nodes|
    ensures Clean(HeedCore(c, i, term), started)
  {
  }

  lemma AcceptClean(c: Core, i: nat, k: nat, started: set<Command>)
    requires Clean(c, started) && i < |c.nodes| && c.nodes[i].term in c.termLog && k < |c.termLog[c.nodes[i].term]|
    ensures Clean(Accept(c, i, k), started)
  {
    var l := c.termLog[c.nodes[i].term];
    assert CleanLog(l[..k + 1], started);
    CleanMoves(c, Accept(c, i, k), i, started, started);
  }

  lemma VoteClean(c: Core, v: nat, cand: nat, p: Peer, args: VoteArgs, started: set<Command>)
    requires Clean(c, started) && v < |c.nodes| && |p.logs| > 0
    ensures Clean(VoteCore(c, v, cand, p, args), started)
  {
    hide HandleVote;
    CleanMoves(c, VoteCore(c, v, cand, p, args), v, started, started);
  }

  lemma VoteReplyClean(c: Core, i: nat, v: nat, p: Peer, reply: VoteReply, started: set<Command>)
    requires Clean(c, started) && i < |c.nodes| && |c.nodes[i].log| > 0
    ensures Clean(VoteReplyCore(c, i, v, p, reply), started)
  {
    CleanMoves(c, VoteReplyCore(c, i, v, p, reply), i, started, started);
  }

  lemma StartClean(c: Core, i: nat, e: Entry, started: set<Command>)
    requires Clean(c, started) && i < |c.nodes|
    ensures Clean(AppendOwn(c, i, e), started + {e.command})
  {
    CleanMoves(c, AppendOwn(c, i, e), i, started, started + {e.command});
  }

  lemma NodeClean(c: Core, i: nat, term: nat, p: Peer, started: set<Command>)
    requires Clean(c, started) && i < |c.nodes|
    ensures Clean(Campaign(c, i), started) && Clean(StepDown(c, i), started)
    ensures Clean(DeposeCore(c, i, p, term), started)
  {
    CleanMoves(c, Campaign(c, i), i, started, started);
    CleanMoves(c, StepDown(c, i), i, started, started);
    CleanMoves(c, DeposeCore(c, i, p, term), i, started, started);
  }

  lemma MoreStarted(c: Core, started: set<Command>, all: set<Command>)
    requires Clean(c, started) && started <= all
    ensures Clean(c, all)
  {
  }

  lemma CoreStepClean(s: System, c: Core, step: Step, started: set<Command>)
    requires BaseInv(s, c) && Shaped(s) && Enabled(s, step) && Clean(c, started)
    ensures Clean(CoreStep(s, c, step), started + StartedBy(step))
  {
    hide CoreInv, HandleVote, HandleAppend, HandleAppendReply, Clean, Campaign, VoteCore, VoteReplyCore, AppendOwn,
      AppendCore, SnapshotCore, DeposeCore, StepDown, Apply, FlightOk, Represents, Piece;
    MoreStarted(c, started, started + StartedBy(step));
    assert started + {} == started;
    match step
    case Timeout(i) =>
      NodeClean(c, i, 0, s.peers[i], started);
    case DeliverVote(call) =>
      VoteClean(c, call.voter, call.candidate, s.peers[call.voter], s.votes[call].args, started);
    case TakeVoteReply(call) =>
      var i := call.candidate;
      assert PeerOk(c, i, s.peers[i]);
      WholeNotEmpty(c, i, s.peers[i]);
      VoteReplyClean(c, i, call.voter, s.peers[i], s.votes[call].reply, started);
    case ClientStart(i, command) =>
      var p := s.peers[i];
      if p.role == Leader {
        StartClean(c, i, Entry(p.snapshotIndex + |p.logs|, p.term, command), started);
      }
    case Check(_, _) =>
    case DeliverAppend(m) =>
      assert PeerOk(c, m.to, s.peers[m.to]);
      AppendClean(c, m.to, s.peers[m.to], m.append, started);
    case TakeAppendReply(m) =>
      NodeClean(c, m.append.leader, m.reply.term, s.peers[m.append.leader], started);
    case DeliverSnapshot(m) =>
      assert MessageOk(c, m) && PeerOk(c, m.to, s.peers[m.to]);
      SnapshotClean(c, m.to, s.peers[m.to], m.snapshot, started);
    case TakeSnapshotReply(m) =>
      NodeClean(c, m.snapshot.leader, m.term, s.peers[m.snapshot.leader], started);
    case CompactLog(_, _) =>
    case ApplyLog(_) =>
    case Crash(i) =>
      NodeClean(c, i, 0, s.peers[i], started);
  }

  lemma WholeNotEmpty(c: Core, i: nat, p: Peer)
    requires PeerOk(c, i, p)
    ensures |c.nodes[i].log| > 0
  {
  }

  lemma AppendClean(c: Core, i: nat, p: Peer, args: AppendArgs, started: set<Command>)
    requires Clean(c, started) && PeerOk(c, i, p)
    ensures Clean(AppendCore(c, i, p, args), started)
  {
    hide HandleAppend, Clean, Accept;
    if args.term >= p.term {
      var d := HeedCore(c, i, args.term);
      HeedClean(c, i, args.term, started);
      if HandleAppend(p, args).1.success && Piece(c.termLog, args) {
        AcceptClean(d, i, args.prevIndex + |args.entries|, started);
      }
    }
  }

  lemma SnapshotClean(c: Core, i: nat, p: Peer, args: SnapshotArgs, started: set<Command>)
    requires Clean(c, started) && PeerOk(c, i, p)
    requires args.term in c.termLog && args.lastIndex < |c.termLog[args.term]|
    ensures Clean(SnapshotCore(c, i, p, args), started)
  {
    hide Clean, Accept;
    if args.term >= p.term {
      var d := HeedCore(c, i, args.term);
      HeedClean(c, i, args.term, started);
      if args.lastIndex > p.snapshotIndex && args.lastIndex > p.commitIndex {
        AcceptClean(d, i, args.lastIndex, started);
      }
    }
  }

  lemma {:induction false} RunClean(n: nat, steps: seq<Step>)
    requires IsRun(n, steps)
    ensures Clean(CoreAfter(n, steps), Started(steps))
    decreases |steps|
  {
    hide Clean, Do, Enabled, Shaped, CoreStep;
    if steps == [] {
      InitClean(n);
    } else {
      var before, step := steps[..|steps| - 1], steps[|steps| - 1];
      RunClean(n, before);
      CoreStepClean(After(n, before), CoreAfter(n, before), step, Started(before));
    }
  }

  lemma InitClean(n: nat)
    ensures Clean(InitCore(n), {})
  {
  }

  /** In every run, with or without compaction, the whole log behind a server holds commands started before. */
  lemma OnlyStartedInWhole(n: nat, steps: seq<Step>, k: nat, i: nat, j: nat)
    requires IsRun(n, steps) && k <= |steps| && i < n && 1 <= j < |WholeLog(n, steps, k, i)|
    ensures WholeLog(n, steps, k, i)[j].command in Started(steps[..k])
  {
    hide IsRun, Started, Extends;
    RunPrefix(n, steps, k);
    RunClean(n, steps[..k]);
    CoreAfterInv(n, steps[..k]);
    assert CleanLog(CoreAfter(n, steps[..k]).nodes[i].log, Started(steps[..k]));
  }

  lemma StoredIs(p: Peer, full: seq<Entry>, j: nat)
    requires Represents(p, full) && 1 <= j < |p.logs|
    ensures p.snapshotIndex + j < |full| && p.logs[j] == full[p.snapshotIndex + j]
  {
  }

  /** So does what the server stores, but for the placeholder. */
  lemma OnlyStartedCommands(n: nat, steps: seq<Step>, k: nat, i: nat, j: nat)
    requires IsRun(n, steps) && k <= |steps| && i < n && 1 <= j < |PeerAt(n, steps, k, i).logs|
    ensures PeerAt(n, steps, k, i).logs[j].command in Started(steps[..k])
  {
    hide IsRun, Started, Represents;
    var p, full := PeerAt(n, steps, k, i), WholeLog(n, steps, k, i);
    StoredIs(p, full, j);
    OnlyStartedInWhole(n, steps, k, i, p.snapshotIndex + j);
  }
}
