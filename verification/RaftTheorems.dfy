/** What holds in every run of a cluster. */
module RaftTheorems {
  import opened RaftTypes
  import opened RaftCore
  import opened RaftPeer
  import opened RaftCompaction
  import opened RaftSystem
  import opened RaftInvariant
  import opened RaftSteps

  /** The history that describes the state a run leads to. */
  ghost function CoreAfter(n: nat, steps: seq<Step>): (c: Core)
    requires IsRun(n, steps)
    ensures BaseInv(After(n, steps), c)
    decreases |steps|
  {
    if steps == [] then
      InitKeeps(n);
      InitCore(n)
    else
      var s, c := After(n, steps[..|steps| - 1]), CoreAfter(n, steps[..|steps| - 1]);
      StepKeeps(s, c, steps[|steps| - 1]);
      CoreStep(s, c, steps[|steps| - 1])
  }

  /** Runs are closed under prefixes, and histories only grow along a run. */
  lemma {:induction false} RunPrefix(n: nat, steps: seq<Step>, k: nat)
    requires IsRun(n, steps) && k <= |steps|
    ensures IsRun(n, steps[..k]) && Extends(CoreAfter(n, steps[..k]), CoreAfter(n, steps))
    decreases |steps|
  {
    if k == |steps| {
      assert steps[..k] == steps;
    } else {
      var before := steps[..|steps| - 1];
      assert before[..k] == steps[..k];
      RunPrefix(n, before, k);
      var a, b, c := CoreAfter(n, steps[..k]), CoreAfter(n, before), CoreAfter(n, steps);
      StepKeeps(After(n, before), b, steps[|steps| - 1]);
      ExtendsChain(a, b, c);
    }
  }

  lemma ExtendsChain(a: Core, b: Core, c: Core)
    requires Extends(a, b) && Extends(b, c)
    ensures Extends(a, c)
  {
    forall t | t in a.termLog ensures t in c.termLog && Agree(a.termLog[t], c.termLog[t], |a.termLog[t]|) {
      assert Agree(a.termLog[t], b.termLog[t], |a.termLog[t]|) && Agree(b.termLog[t], c.termLog[t], |b.termLog[t]|);
    }
  }

  /** Server `i` after the first `k` steps. */
  ghost function PeerAt(n: nat, steps: seq<Step>, k: nat, i: nat): (p: Peer)
    requires IsRun(n, steps) && k <= |steps| && i < n
    ensures WellFormed(p, n) && p.me == i
  {
    RunPrefix(n, steps, k);
    RunSize(n, steps[..k]);
    assert PeerOk(CoreAfter(n, steps[..k]), i, After(n, steps[..k]).peers[i]);
    After(n, steps[..k]).peers[i]
  }

  lemma {:induction false} RunSize(n: nat, steps: seq<Step>)
    requires IsRun(n, steps)
    ensures |After(n, steps).peers| == n
    decreases |steps|
  {
    if steps != [] {
      RunSize(n, steps[..|steps| - 1]);
      DoSize(After(n, steps[..|steps| - 1]), steps[|steps| - 1]);
    }
  }

  // ---------------------------------------------------------------- elections, in all runs

  lemma LeaderRecorded(n: nat, steps: seq<Step>, k: nat, a: nat)
    requires IsRun(n, steps) && k <= |steps| && a < n && PeerAt(n, steps, k, a).role == Leader
    ensures var t := PeerAt(n, steps, k, a).term;
            t in CoreAfter(n, steps).leaderOf && CoreAfter(n, steps).leaderOf[t] == a
  {
    RunPrefix(n, steps, k);
    RunSize(n, steps[..k]);
    var c := CoreAfter(n, steps[..k]);
    assert PeerOk(c, a, After(n, steps[..k]).peers[a]);
    assert GoodRole(c, a);
  }

  /** At most one server is ever leader of a term, however the two moments of the run are chosen. */
  lemma OneLeaderPerTerm(n: nat, steps: seq<Step>, j: nat, k: nat, a: nat, b: nat)
    requires IsRun(n, steps) && j <= |steps| && k <= |steps| && a < n && b < n
    requires PeerAt(n, steps, j, a).role == Leader && PeerAt(n, steps, k, b).role == Leader
    requires PeerAt(n, steps, j, a).term == PeerAt(n, steps, k, b).term
    ensures a == b
  {
    LeaderRecorded(n, steps, j, a);
    LeaderRecorded(n, steps, k, b);
  }

  ghost predicate CastAt(n: nat, steps: seq<Step>, k: nat, term: nat, voter: nat, cand: nat)
    requires IsRun(n, steps) && voter < n
  {
    k <= |steps| && PeerAt(n, steps, k, voter).term == term && PeerAt(n, steps, k, voter).votedFor == cand
  }

  /** `voter` voted for `cand` in `term` at some moment of the run. */
  ghost predicate Cast(n: nat, steps: seq<Step>, term: nat, voter: nat, cand: nat)
    requires IsRun(n, steps) && voter < n
  {
    exists k: nat :: CastAt(n, steps, k, term, voter, cand)
  }

  /** Server `i` may have voted, its log may have grown, and no other ballot was cast. */
  ghost predicate Ordinary(c: Core, d: Core, i: nat) {
    && i < |c.nodes| == |d.nodes|
    && Agree(c.nodes[i].log, d.nodes[i].log, |c.nodes[i].log|)
    && OwnBallot(c, d, i)
  }

  ghost predicate OwnBallot(c: Core, d: Core, i: nat) {
    i < |d.nodes| && forall slot :: slot in d.ballots ==> slot in c.ballots || slot == Slot(d.nodes[i].term, i)
  }

  lemma VoteOrdinary(c: Core, v: nat, cand: nat, p: Peer, args: VoteArgs)
    requires v < |c.nodes| && |p.logs| > 0
    ensures Ordinary(c, VoteCore(c, v, cand, p, args), v)
  {
    hide HandleVote;
  }

  lemma VoteReplyOrdinary(c: Core, i: nat, v: nat, p: Peer, reply: VoteReply)
    requires i < |c.nodes| && |c.nodes[i].log| > 0
    ensures Ordinary(c, VoteReplyCore(c, i, v, p, reply), i)
  {
  }

  lemma OtherOrdinary(c: Core, i: nat, p: Peer, term: nat, e: Entry)
    requires i < |c.nodes|
    ensures Ordinary(c, c, i) && Ordinary(c, Campaign(c, i), i) && Ordinary(c, StepDown(c, i), i)
    ensures Ordinary(c, AppendOwn(c, i, e), i) && Ordinary(c, DeposeCore(c, i, p, term), i)
  {
  }

  lemma AppendCasts(c: Core, i: nat, p: Peer, args: AppendArgs)
    requires i < |c.nodes| && |p.logs| > 0 && p.term == c.nodes[i].term
    ensures OwnBallot(c, AppendCore(c, i, p, args), i)
  {
    hide HandleAppend, Piece;
  }

  lemma SnapshotCasts(c: Core, i: nat, p: Peer, args: SnapshotArgs)
    requires i < |c.nodes| && p.term == c.nodes[i].term
    requires args.term in c.termLog && args.lastIndex < |c.termLog[args.term]|
    ensures OwnBallot(c, SnapshotCore(c, i, p, args), i)
  {
  }

  lemma OrdinaryStep(s: System, c: Core, step: Step, d: Core)
    requires BaseInv(s, c) && Shaped(s) && Enabled(s, step) && d == CoreStep(s, c, step)
    requires !step.DeliverAppend? && !step.DeliverSnapshot?
    ensures Ordinary(c, d, Actor(step))
  {
    hide CoreInv, CountOk, MessageOk, Ordinary, VoteCore, VoteReplyCore, AppendOwn, DeposeCore, Campaign, StepDown;
    var i := Actor(step);
    assert i < |c.nodes| && PeerOk(c, i, s.peers[i]);
    match step
    case DeliverVote(call) => VoteOrdinary(c, i, call.candidate, s.peers[i], s.votes[call].args);
    case TakeVoteReply(call) => VoteReplyOrdinary(c, i, call.voter, s.peers[i], s.votes[call].reply);
    case ClientStart(_, command) =>
      OtherOrdinary(c, i, s.peers[i], 0, Entry(s.peers[i].snapshotIndex + |s.peers[i].logs|, s.peers[i].term, command));
    case TakeAppendReply(m) => OtherOrdinary(c, i, s.peers[i], m.reply.term, DUMMY);
    case TakeSnapshotReply(m) => OtherOrdinary(c, i, s.peers[i], m.term, DUMMY);
    case Timeout(_) => OtherOrdinary(c, i, s.peers[i], 0, DUMMY);
    case Check(_, _) => OtherOrdinary(c, i, s.peers[i], 0, DUMMY);
    case CompactLog(_, _) => OtherOrdinary(c, i, s.peers[i], 0, DUMMY);
    case ApplyLog(_) => OtherOrdinary(c, i, s.peers[i], 0, DUMMY);
    case Crash(_) => OtherOrdinary(c, i, s.peers[i], 0, DUMMY);
  }

  /** A ballot that a step adds is the vote its server then holds. */
  lemma NewBallot(s: System, c: Core, step: Step, d: Core, slot: Slot)
    requires BaseInv(s, c) && Shaped(s) && Enabled(s, step) && d == CoreStep(s, c, step)
    requires slot in d.ballots && slot !in c.ballots
    ensures Actor(step) < |d.nodes| && slot == Slot(d.nodes[Actor(step)].term, Actor(step))
  {
    hide CoreInv, CountOk, FlightOk, AppendCore, SnapshotCore;
    if step.DeliverAppend? {
      var i := step.msg.to;
      assert PeerOk(c, i, s.peers[i]);
      AppendCasts(c, i, s.peers[i], step.msg.append);
    } else if step.DeliverSnapshot? {
      var i := step.msg.to;
      assert MessageOk(c, step.msg) && PeerOk(c, i, s.peers[i]);
      SnapshotCasts(c, i, s.peers[i], step.msg.snapshot);
    } else {
      OrdinaryStep(s, c, step, d);
    }
  }

  lemma CastGrows(n: nat, steps: seq<Step>, term: nat, voter: nat, cand: nat)
    requires IsRun(n, steps) && steps != [] && voter < n
    requires Cast(n, steps[..|steps| - 1], term, voter, cand)
    ensures Cast(n, steps, term, voter, cand)
  {
    var before := steps[..|steps| - 1];
    var k: nat :| CastAt(n, before, k, term, voter, cand);
    assert before[..k] == steps[..k];
    assert CastAt(n, steps, k, term, voter, cand);
  }

  lemma HeldIsCast(n: nat, steps: seq<Step>, slot: Slot)
    requires IsRun(n, steps) && slot in CoreAfter(n, steps).ballots
    requires slot.voter < |After(n, steps).peers| == n && slot.term == After(n, steps).peers[slot.voter].term
    ensures Cast(n, steps, slot.term, slot.voter, CoreAfter(n, steps).ballots[slot].cand)
  {
    var c := CoreAfter(n, steps);
    assert GoodBallot(c, slot) && PeerOk(c, slot.voter, After(n, steps).peers[slot.voter]);
    assert steps[..|steps|] == steps;
    assert CastAt(n, steps, |steps|, slot.term, slot.voter, c.ballots[slot].cand);
  }

  lemma {:induction false} BallotsWereCast(n: nat, steps: seq<Step>, slot: Slot)
    requires IsRun(n, steps) && slot in CoreAfter(n, steps).ballots
    ensures slot.voter < n && Cast(n, steps, slot.term, slot.voter, CoreAfter(n, steps).ballots[slot].cand)
    decreases |steps|
  {
    RunSize(n, steps);
    if steps != [] {
      var before := steps[..|steps| - 1];
      var s, b := After(n, before), CoreAfter(n, before);
      if slot in b.ballots {
        BallotsWereCast(n, before, slot);
        StepKeeps(s, b, steps[|steps| - 1]);
        CastGrows(n, steps, slot.term, slot.voter, b.ballots[slot].cand);
      } else {
        NewBallot(s, b, steps[|steps| - 1], CoreAfter(n, steps), slot);
        assert PeerOk(CoreAfter(n, steps), slot.voter, After(n, steps).peers[slot.voter]);
        HeldIsCast(n, steps, slot);
      }
    }
  }

  /** A candidate counts each of its votes once: the count is a number of servers that voted for it in its term. */
  lemma VoteCountSound(n: nat, steps: seq<Step>, i: nat) returns (voters: set<nat>)
    requires IsRun(n, steps) && i < n && PeerAt(n, steps, |steps|, i).role == Candidate
    ensures PeerAt(n, steps, |steps|, i).voteCount == |voters|
    ensures forall v :: v in voters ==> v < n && Cast(n, steps, PeerAt(n, steps, |steps|, i).term, v, i)
  {
    RunSize(n, steps);
    assert steps[..|steps|] == steps;
    var c, p := CoreAfter(n, steps), PeerAt(n, steps, |steps|, i);
    assert PeerOk(c, i, p) && CountOk(c, i, p, After(n, steps).votes);
    assert GoodRole(c, i);
    voters := c.nodes[i].counted;
    forall v | v in voters ensures v < n && Cast(n, steps, p.term, v, i) {
      assert VotedFor(c, p.term, v, i);
      BallotsWereCast(n, steps, Slot(p.term, v));
    }
  }

  // ---------------------------------------------------------------- logs, in all runs

  /** Whole logs behind the compacted ones: one per server, and equal terms at an index mean equal logs up to it. */
  lemma LogMatchingInRuns(n: nat, steps: seq<Step>) returns (full: seq<seq<Entry>>)
    requires IsRun(n, steps)
    ensures |full| == n
    ensures forall i :: 0 <= i < n ==> Represents(PeerAt(n, steps, |steps|, i), full[i])
    ensures forall i, k :: 0 <= i < n && 0 <= k < |full[i]| ==> full[i][k].globalIndex == k
    ensures forall i, j, k ::
              (0 <= i < n && 0 <= j < n && 0 <= k < |full[i]| && k < |full[j]|
                  && full[i][k].term == full[j][k].term) ==>
                Agree(full[i], full[j], k + 1)
  {
    RunSize(n, steps);
    assert steps[..|steps|] == steps;
    var c := CoreAfter(n, steps);
    full := seq(n, i requires 0 <= i < n => c.nodes[i].log);
    forall i | 0 <= i < n
      ensures Represents(PeerAt(n, steps, |steps|, i), full[i]) && Owned(c.termLog, full[i]) && GoodLog(full[i])
    {
      assert PeerOk(c, i, After(n, steps).peers[i]) && GoodNode(c, i);
    }
    forall i, j, k | 0 <= i < n && 0 <= j < n && 0 <= k < |full[i]| && k < |full[j]|
        && full[i][k].term == full[j][k].term
      ensures Agree(full[i], full[j], k + 1)
    {
      LogMatching(c.termLog, full[i], full[j], k);
    }
  }

  lemma StoredEntry(p: Peer, full: seq<Entry>, k: nat)
    requires Represents(p, full) && p.snapshotIndex < k <= p.Last()
    ensures k < |full| && p.logs[k - p.snapshotIndex] == full[k]
  {
  }

  /** The same for the entries two peers still store, with no whole log in sight. */
  lemma StoredLogsMatch(n: nat, steps: seq<Step>, a: nat, b: nat, k: nat, m: nat)
    requires IsRun(n, steps) && a < n && b < n
    requires var p, q := PeerAt(n, steps, |steps|, a), PeerAt(n, steps, |steps|, b);
      && Max(p.snapshotIndex, q.snapshotIndex) < m <= k <= Min(p.Last(), q.Last())
      && p.logs[k - p.snapshotIndex].term == q.logs[k - q.snapshotIndex].term
    ensures var p, q := PeerAt(n, steps, |steps|, a), PeerAt(n, steps, |steps|, b);
      && p.logs[m - p.snapshotIndex] == q.logs[m - q.snapshotIndex]
      && p.logs[m - p.snapshotIndex].globalIndex == m
  {
    hide IsRun, Represents;
    var full := LogMatchingInRuns(n, steps);
    var p, q := PeerAt(n, steps, |steps|, a), PeerAt(n, steps, |steps|, b);
    StoredEntry(p, full[a], k);
    StoredEntry(q, full[b], k);
    StoredEntry(p, full[a], m);
    StoredEntry(q, full[b], m);
  }
}
