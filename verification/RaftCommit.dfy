/**
 What is committed stays and agrees, in every run that meets the guard of
 `RaftSafety`; every run without compaction does.
 */
module RaftCommit {
  import opened RaftTypes
  import opened RaftCore
  import opened RaftPeer
  import opened RaftCompaction
  import opened RaftSystem
  import opened RaftInvariant
  import opened RaftSteps
  import opened RaftSafety
  import opened RaftSafeSteps
  import opened RaftPlain
  import opened RaftTheorems

  lemma {:induction false} SafeAfter(n: nat, steps: seq<Step>)
    requires IsRun(n, steps) && GuardedRun(n, steps)
    ensures SafeInv(After(n, steps), CoreAfter(n, steps))
    decreases |steps|
  {
    if steps == [] {
      SafeInit(n);
    } else {
      hide SafeInv, Guarded;
      var before := steps[..|steps| - 1];
      SafeAfter(n, before);
      SafeStepKeeps(After(n, before), CoreAfter(n, before), steps[|steps| - 1]);
    }
  }

  lemma SafeInit(n: nat)
    ensures SafeInv(Init(n), InitCore(n)) && PlainInv(Init(n), InitCore(n))
  {
  }

  /** Without compaction the guard is always met. */
  lemma {:induction false} PlainAfter(n: nat, steps: seq<Step>)
    requires IsRun(n, steps) && WithoutCompaction(steps)
    ensures GuardedRun(n, steps) && PlainInv(After(n, steps), CoreAfter(n, steps))
    decreases |steps|
  {
    if steps == [] {
      SafeInit(n);
    } else {
      hide SafeInv, PlainInv, Guarded;
      var before := steps[..|steps| - 1];
      PlainAfter(n, before);
      SafeAfter(n, before);
      PlainStep(After(n, before), CoreAfter(n, before), steps[|steps| - 1]);
    }
  }

  lemma {:induction false} GuardedPrefix(n: nat, steps: seq<Step>, k: nat)
    requires IsRun(n, steps) && GuardedRun(n, steps) && k <= |steps|
    ensures IsRun(n, steps[..k]) && GuardedRun(n, steps[..k])
    decreases |steps|
  {
    if k == |steps| {
      assert steps[..k] == steps;
    } else {
      var before := steps[..|steps| - 1];
      assert before[..k] == steps[..k];
      GuardedPrefix(n, before, k);
    }
  }

  /** The whole log behind server `i` after the first `k` steps. */
  ghost function WholeLog(n: nat, steps: seq<Step>, k: nat, i: nat): (full: seq<Entry>)
    requires IsRun(n, steps) && k <= |steps| && i < n
    ensures Represents(PeerAt(n, steps, k, i), full)
  {
    RunPrefix(n, steps, k);
    RunSize(n, steps[..k]);
    assert PeerOk(CoreAfter(n, steps[..k]), i, After(n, steps[..k]).peers[i]);
    CoreAfter(n, steps[..k]).nodes[i].log
  }

  lemma PeerFacts(n: nat, steps: seq<Step>, k: nat, i: nat)
    requires IsRun(n, steps) && GuardedRun(n, steps) && k <= |steps| && i < n
    ensures IsRun(n, steps[..k])
    ensures var c, p, full := CoreAfter(n, steps[..k]), PeerAt(n, steps, k, i), WholeLog(n, steps, k, i);
            && PeerOk(c, i, p) && full == c.nodes[i].log && PeerSafe(c, full, p) && GoodLog(full)
            && p.term == c.nodes[i].term
  {
    hide PeerSafe, GuardedRun;
    RunPrefix(n, steps, k);
    RunSize(n, steps[..k]);
    GuardedPrefix(n, steps, k);
    SafeAfter(n, steps[..k]);
    var c, p := CoreAfter(n, steps[..k]), PeerAt(n, steps, k, i);
    assert PeerOk(c, i, p) && PeerSafe(c, c.nodes[i].log, p);
    GoodWhole(c, i);
  }

  /** The same, with commitment carried over to the end of the run. */
  lemma SettledFacts(n: nat, steps: seq<Step>, k: nat, i: nat)
    requires IsRun(n, steps) && GuardedRun(n, steps) && k <= |steps| && i < n
    ensures var p, full := PeerAt(n, steps, k, i), WholeLog(n, steps, k, i);
            Committed(CoreAfter(n, steps), full, Settled(p), p.term) && GoodLog(full)
  {
    hide IsRun, GuardedRun, Extends, CoveredBy, PeerOk;
    PeerFacts(n, steps, k, i);
    RunPrefix(n, steps, k);
    var p, full := PeerAt(n, steps, k, i), WholeLog(n, steps, k, i);
    CommittedGrows(CoreAfter(n, steps[..k]), CoreAfter(n, steps), full, Settled(p), p.term, full, p.term);
  }

  lemma CoreAfterInv(n: nat, steps: seq<Step>)
    requires IsRun(n, steps)
    ensures CoreInv(CoreAfter(n, steps)) && |CoreAfter(n, steps).nodes| == n
  {
    RunSize(n, steps);
  }

  // ---------------------------------------------------------------- agreement

  /** Whatever a server has committed, or holds in a snapshot, every leader of its term or a later one holds. */
  lemma LeadersHoldCommitted(n: nat, steps: seq<Step>, k: nat, a: nat, b: nat)
    requires IsRun(n, steps) && GuardedRun(n, steps) && k <= |steps| && a < n && b < n
    requires PeerAt(n, steps, |steps|, b).role == Leader
    requires PeerAt(n, steps, k, a).term <= PeerAt(n, steps, |steps|, b).term
    ensures Agree(WholeLog(n, steps, k, a), WholeLog(n, steps, |steps|, b), Settled(PeerAt(n, steps, k, a)) + 1)
  {
    hide IsRun, GuardedRun, CoreInv, CoveredBy;
    var p, q := PeerAt(n, steps, k, a), PeerAt(n, steps, |steps|, b);
    SettledFacts(n, steps, k, a);
    PeerFacts(n, steps, |steps|, b);
    assert steps[..|steps|] == steps;
    CoreAfterInv(n, steps);
    LeaderBasics(CoreAfter(n, steps), b);
    LeaderHasCommitted(CoreAfter(n, steps), WholeLog(n, steps, k, a), Settled(p), p.term, q.term);
  }

  /** No two servers ever hand different commands to their services at the same index. */
  lemma StateMachineSafety(n: nat, steps: seq<Step>, x: Applied, y: Applied)
    requires IsRun(n, steps) && GuardedRun(n, steps)
    requires x in After(n, steps).applied && y in After(n, steps).applied && x.index == y.index
    ensures x.command == y.command
  {
    hide CoreInv, GuardedRun, IsRun, Chosen;
    SafeAfter(n, steps);
    CoreAfterInv(n, steps);
    SameCommand(CoreAfter(n, steps), x, y);
  }

  lemma SameCommand(c: Core, x: Applied, y: Applied)
    requires CoreInv(c) && AppliedSafe(c, x) && AppliedSafe(c, y) && x.index == y.index
    ensures x.command == y.command
  {
    hide CoreInv;
    var t: nat, m: nat :| AppliedBy(c, x, t, m);
    var u: nat, o: nat :| AppliedBy(c, y, u, o);
    if t < u {
      LeaderCompleteness(c, t, m, u);
    } else if u < t {
      LeaderCompleteness(c, u, o, t);
    }
  }

  /** Committed prefixes and snapshots of any two servers, at any two moments, agree. */
  lemma CommittedPrefixesAgree(n: nat, steps: seq<Step>, j: nat, a: nat, k: nat, b: nat)
    requires IsRun(n, steps) && GuardedRun(n, steps) && j <= |steps| && k <= |steps| && a < n && b < n
    ensures var p, q := PeerAt(n, steps, j, a), PeerAt(n, steps, k, b);
            Agree(WholeLog(n, steps, j, a), WholeLog(n, steps, k, b), Min(Settled(p), Settled(q)) + 1)
  {
    hide IsRun, GuardedRun, CoreInv, Committed;
    var p, q := PeerAt(n, steps, j, a), PeerAt(n, steps, k, b);
    SettledFacts(n, steps, j, a);
    SettledFacts(n, steps, k, b);
    CoreAfterInv(n, steps);
    CommittedAgree(CoreAfter(n, steps), WholeLog(n, steps, j, a), Settled(p), p.term,
                   WholeLog(n, steps, k, b), Settled(q), q.term);
  }

  /** Both peers store the same entry of index `m`. */
  predicate SameStored(p: Peer, q: Peer, m: nat) {
    && p.snapshotIndex < m && q.snapshotIndex < m
    && m - p.snapshotIndex < |p.logs| && m - q.snapshotIndex < |q.logs|
    && p.logs[m - p.snapshotIndex] == q.logs[m - q.snapshotIndex]
  }

  lemma StoredAgree(p: Peer, a: seq<Entry>, q: Peer, b: seq<Entry>, m: nat)
    requires Represents(p, a) && Represents(q, b) && Max(p.snapshotIndex, q.snapshotIndex) < m && Agree(a, b, m + 1)
    ensures SameStored(p, q, m)
  {
    hide Represents;
    WithinLog(p, a, m);
    WithinLog(q, b, m);
  }

  /** The same for the entries that both peers still store, with no whole log in sight. */
  lemma CommittedEntriesAgree(n: nat, steps: seq<Step>, j: nat, a: nat, k: nat, b: nat, m: nat)
    requires IsRun(n, steps) && GuardedRun(n, steps) && j <= |steps| && k <= |steps| && a < n && b < n
    requires var p, q := PeerAt(n, steps, j, a), PeerAt(n, steps, k, b);
             Max(p.snapshotIndex, q.snapshotIndex) < m <= Min(p.commitIndex, q.commitIndex)
    ensures SameStored(PeerAt(n, steps, j, a), PeerAt(n, steps, k, b), m)
  {
    hide IsRun, GuardedRun, Represents, SameStored;
    CommittedPrefixesAgree(n, steps, j, a, k, b);
    StoredAgree(PeerAt(n, steps, j, a), WholeLog(n, steps, j, a), PeerAt(n, steps, k, b), WholeLog(n, steps, k, b), m);
  }

  lemma WithinLog(p: Peer, full: seq<Entry>, m: nat)
    requires Represents(p, full) && p.snapshotIndex < m < |full|
    ensures m - p.snapshotIndex < |p.logs| && p.logs[m - p.snapshotIndex] == full[m]
  {
  }

  // ---------------------------------------------------------------- nothing committed is overwritten

  /** How a step can change the log of a server. */
  ghost predicate LogMove(c: Core, log: seq<Entry>, term: nat, log': seq<Entry>, u: nat, m: nat) {
    || Agree(log, log', |log|)
    || (term <= u && u in c.termLog && m < |c.termLog[u]| && log' == Taken(log, c.termLog[u], m))
  }

  lemma AppendMove(c: Core, i: nat, p: Peer, args: AppendArgs)
    requires i < |c.nodes| && |p.logs| > 0 && p.term == c.nodes[i].term
    ensures |AppendCore(c, i, p, args).nodes| == |c.nodes|
    ensures LogMove(c, c.nodes[i].log, c.nodes[i].term, AppendCore(c, i, p, args).nodes[i].log,
                    args.term, args.prevIndex + |args.entries|)
  {
    hide HandleAppend;
  }

  lemma SnapshotMove(c: Core, i: nat, p: Peer, args: SnapshotArgs)
    requires i < |c.nodes| && p.term == c.nodes[i].term
    requires args.term in c.termLog && args.lastIndex < |c.termLog[args.term]|
    ensures |SnapshotCore(c, i, p, args).nodes| == |c.nodes|
    ensures LogMove(c, c.nodes[i].log, c.nodes[i].term, SnapshotCore(c, i, p, args).nodes[i].log, args.term,
            args.lastIndex)
  {
  }

  lemma StepLogMove(s: System, c: Core, step: Step, d: Core, i: nat) returns (u: nat, m: nat)
    requires BaseInv(s, c) && Shaped(s) && Enabled(s, step) && d == CoreStep(s, c, step) && i < |c.nodes|
    ensures i < |d.nodes| && LogMove(c, c.nodes[i].log, c.nodes[i].term, d.nodes[i].log, u, m)
  {
    hide CoreInv, AppendCore, SnapshotCore, FlightOk, CountOk;
    u, m := 0, 0;
    if i != Actor(step) {
      StepEvolves(s, c, step);
    } else if step.DeliverAppend? {
      assert PeerOk(c, i, s.peers[i]);
      AppendMove(c, i, s.peers[i], step.msg.append);
      u, m := step.msg.append.term, step.msg.append.prevIndex + |step.msg.append.entries|;
    } else if step.DeliverSnapshot? {
      assert MessageOk(c, step.msg) && PeerOk(c, i, s.peers[i]);
      SnapshotMove(c, i, s.peers[i], step.msg.snapshot);
      u, m := step.msg.snapshot.term, step.msg.snapshot.lastIndex;
    } else {
      OrdinaryStep(s, c, step, d);
    }
  }

  ghost predicate StaysCommitted(c: Core, d: Core, i: nat, k: nat) {
    && i < |c.nodes| == |d.nodes| && c.nodes[i].term <= d.nodes[i].term
    && Agree(c.nodes[i].log, d.nodes[i].log, k + 1)
    && Committed(d, d.nodes[i].log, k, d.nodes[i].term)
  }

  lemma CommittedStep(s: System, c: Core, step: Step, i: nat, k: nat)
    requires BaseInv(s, c) && Shaped(s) && Enabled(s, step) && i < |c.nodes|
    requires Committed(c, c.nodes[i].log, k, c.nodes[i].term)
    ensures StaysCommitted(c, CoreStep(s, c, step), i, k)
  {
    var u, m := StepLogMove(s, c, step, CoreStep(s, c, step), i);
    StepEvolves(s, c, step);
    MovedCommitted(c, CoreStep(s, c, step), i, k, u, m);
  }

  lemma {:induction false} CoreStaysCommitted(n: nat, steps: seq<Step>, k: nat, i: nat, m: nat)
    requires IsRun(n, steps) && k <= |steps| && IsRun(n, steps[..k]) && i < |CoreAfter(n, steps[..k]).nodes|
    requires var p := CoreAfter(n, steps[..k]).nodes[i]; Committed(CoreAfter(n, steps[..k]), p.log, m, p.term)
    ensures StaysCommitted(CoreAfter(n, steps[..k]), CoreAfter(n, steps), i, m)
    decreases |steps|
  {
    hide Do, Enabled, Shaped, CoreStep, CoreInv;
    if k == |steps| {
      assert steps[..k] == steps;
    } else {
      var before := steps[..|steps| - 1];
      assert before[..k] == steps[..k];
      CoreStaysCommitted(n, before, k, i, m);
      CommittedStep(After(n, before), CoreAfter(n, before), steps[|steps| - 1], i, m);
      StaysChain(CoreAfter(n, steps[..k]), CoreAfter(n, before), CoreAfter(n, steps), i, m);
    }
  }

  lemma StaysChain(a: Core, b: Core, c: Core, i: nat, m: nat)
    requires StaysCommitted(a, b, i, m) && StaysCommitted(b, c, i, m)
    ensures StaysCommitted(a, c, i, m)
  {
  }

  lemma MovedCommitted(c: Core, d: Core, i: nat, k: nat, u: nat, m: nat)
    requires CoreInv(c) && Extends(c, d) && i < |c.nodes| && c.nodes[i].term <= d.nodes[i].term
    requires LogMove(c, c.nodes[i].log, c.nodes[i].term, d.nodes[i].log, u, m)
    requires Committed(c, c.nodes[i].log, k, c.nodes[i].term)
    ensures StaysCommitted(c, d, i, k)
  {
    var p, q := c.nodes[i], d.nodes[i];
    assert GoodNode(c, i);
    if !Agree(p.log, q.log, |p.log|) {
      CommittedSurvives(c, p.log, k, p.term, u, m);
    }
    CommittedGrows(c, d, p.log, k, p.term, q.log, q.term);
  }

  /** The settled prefix of a server is never overwritten, not even after a crash resets its commit index. */
  lemma CommittedStays(n: nat, steps: seq<Step>, k: nat, i: nat)
    requires IsRun(n, steps) && GuardedRun(n, steps) && k <= |steps| && i < n
    ensures var p, q := PeerAt(n, steps, k, i), PeerAt(n, steps, |steps|, i);
            p.term <= q.term && Agree(WholeLog(n, steps, k, i), WholeLog(n, steps, |steps|, i), Settled(p) + 1)
  {
    hide IsRun, GuardedRun, CoreInv, Committed;
    assert steps[..|steps|] == steps;
    PeerFacts(n, steps, k, i);
    PeerFacts(n, steps, |steps|, i);
    CoreStaysCommitted(n, steps, k, i, Settled(PeerAt(n, steps, k, i)));
  }

  // ---------------------------------------------------------------- replies and applying

  /** A success that a leader accepts answers a request of its own term, and no reply makes it read outside its log. */
  lemma RepliesAreSafe(n: nat, steps: seq<Step>, m: Message)
    requires IsRun(n, steps) && GuardedRun(n, steps)
    requires m in After(n, steps).net && m.AppendReplyMsg?
    ensures m.from < n && m.append.leader < n
    ensures var p := PeerAt(n, steps, |steps|, m.append.leader);
            && HandleAppendReply(p, m.from, m.append, m.reply).Some?
            && (m.reply.success ==> m.reply.term == m.append.term)
  {
    hide IsRun, GuardedRun, CoreInv, PeerOk, PeerSafe, KeepsBound, Piece, FlightOk, CountOk, AppliedSafe;
    SafeAfter(n, steps);
    RunSize(n, steps);
    CoreAfterInv(n, steps);
    var c := CoreAfter(n, steps);
    assert MessageOk(c, m) && MessageSafe(c, m) && ProbeBound(After(n, steps).peers, m);
    PeerFacts(n, steps, |steps|, m.append.leader);
    assert steps[..|steps|] == steps;
    var p := PeerAt(n, steps, |steps|, m.append.leader);
    if p.role == Leader && m.reply.term == p.term {
      ReplySafe(c, m.append.leader, p, m.from, m.append, m.reply);
    }
  }

  /** Every request carries the whole tail, so cutting off at the follower's end is the rule of the Raft paper. */
  lemma FollowerCommitRule(n: nat, steps: seq<Step>, m: Message)
    requires IsRun(n, steps) && GuardedRun(n, steps)
    requires m in After(n, steps).net && m.AppendMsg?
    ensures m.to < n
    ensures var p := PeerAt(n, steps, |steps|, m.to);
            var (q, reply) := HandleAppend(p, m.append);
            reply.success ==>
              q.commitIndex == Max(p.commitIndex, Min(m.append.leaderCommit, m.append.prevIndex + |m.append.entries|))
  {
    hide IsRun, GuardedRun, HandleAppend, CoreInv, PeerOk, PeerSafe, Piece, Committed, FlightOk, CountOk, AppliedSafe;
    SafeAfter(n, steps);
    RunSize(n, steps);
    CoreAfterInv(n, steps);
    var c, args := CoreAfter(n, steps), m.append;
    assert MessageOk(c, m) && MessageSafe(c, m);
    PeerFacts(n, steps, |steps|, m.to);
    assert steps[..|steps|] == steps;
    var p := PeerAt(n, steps, |steps|, m.to);
    AppendAnswer(p, args);
    if HandleAppend(p, args).1.success {
      LongEnough(c, m.to, p, args);
    }
  }

  lemma LongEnough(c: Core, i: nat, p: Peer, args: AppendArgs)
    requires CoreInv(c) && PeerOk(c, i, p) && Piece(c.termLog, args) && HandleAppend(p, args).1.success
    ensures HandleAppend(p, args).0.Last() >= args.prevIndex + |args.entries|
  {
    hide CoreInv, HandleAppend, AppendCore, PeerOk, Piece;
    WholeLength(c, i, p);
    OwnTerm(c, i, p);
    PieceTerm(c, args);
    AppendCoreKeeps(c, i, p, args);
    AppendAcks(c, i, p, args);
    WholeLength(AppendCore(c, i, p, args), i, HandleAppend(p, args).0);
  }

  /** The apply loop never runs past the log. */
  lemma ApplyIsSafe(n: nat, steps: seq<Step>, i: nat)
    requires IsRun(n, steps) && GuardedRun(n, steps) && i < n
    ensures RaftPeer.Apply(PeerAt(n, steps, |steps|, i)).Some?
  {
    hide IsRun, GuardedRun, CoreInv;
    PeerFacts(n, steps, |steps|, i);
    WholeLength(CoreAfter(n, steps[..|steps|]), i, PeerAt(n, steps, |steps|, i));
  }

  // ---------------------------------------------------------------- runs without compaction

  /** Without compaction a peer's log is the whole log. */
  lemma PlainPeerFacts(n: nat, steps: seq<Step>, k: nat, i: nat)
    requires IsRun(n, steps) && WithoutCompaction(steps) && k <= |steps| && i < n
    ensures GuardedRun(n, steps)
    ensures var p := PeerAt(n, steps, k, i);
            && p.snapshotIndex == 0 && p.logs == WholeLog(n, steps, k, i) && p.lastApplied <= p.commitIndex < |p.logs|
    ensures IsRun(n, steps[..k]) && PlainPeer(CoreAfter(n, steps[..k]), PeerAt(n, steps, k, i))
  {
    hide IsRun, GuardedRun, CoreInv, IndexesOk, CoveredBy;
    PlainAfter(n, steps);
    PeerFacts(n, steps, k, i);
    RunSize(n, steps[..k]);
    PlainAfter(n, steps[..k]);
    var c, p := CoreAfter(n, steps[..k]), PeerAt(n, steps, k, i);
    assert PlainPeer(c, p);
    CoreAfterInv(n, steps[..k]);
    PlainWhole(c, i, p);
  }

  /** Without compaction the committed prefixes of any two peers, at any two moments, agree as they are stored. */
  lemma PlainPrefixesAgree(n: nat, steps: seq<Step>, j: nat, a: nat, k: nat, b: nat)
    requires IsRun(n, steps) && WithoutCompaction(steps) && j <= |steps| && k <= |steps| && a < n && b < n
    ensures var p, q := PeerAt(n, steps, j, a), PeerAt(n, steps, k, b);
            Agree(p.logs, q.logs, Min(p.commitIndex, q.commitIndex) + 1)
  {
    hide IsRun, GuardedRun, PlainPeer;
    PlainPeerFacts(n, steps, j, a);
    PlainPeerFacts(n, steps, k, b);
    CommittedPrefixesAgree(n, steps, j, a, k, b);
  }

  /** What a leader believes about a follower of its own term is true. */
  lemma MatchIndexSound(n: nat, steps: seq<Step>, l: nat, f: nat)
    requires IsRun(n, steps) && WithoutCompaction(steps) && l < n && f < n
    requires PeerAt(n, steps, |steps|, l).role == Leader
    ensures var p, q := PeerAt(n, steps, |steps|, l), PeerAt(n, steps, |steps|, f);
            && 1 <= p.nextIndex[f] <= p.Last() + 1 && p.matchIndex[f] <= p.Last()
            && (q.term == p.term ==> Agree(p.logs, q.logs, p.matchIndex[f] + 1))
  {
    hide IsRun, GuardedRun, CoreInv, AckedTo, PeerSafe;
    assert steps[..|steps|] == steps;
    var p, q := PeerAt(n, steps, |steps|, l), PeerAt(n, steps, |steps|, f);
    PlainPeerFacts(n, steps, |steps|, l);
    PlainPeerFacts(n, steps, |steps|, f);
    PeerFacts(n, steps, |steps|, l);
    PeerFacts(n, steps, |steps|, f);
    CoreAfterInv(n, steps);
    var c := CoreAfter(n, steps);
    LeaderBasics(c, l);
    BothDummies(n, steps, l, f);
    if p.matchIndex[f] > 0 && q.term == p.term {
      AckedAgree(c, f, p.term, p.matchIndex[f]);
    }
  }

  lemma BothDummies(n: nat, steps: seq<Step>, l: nat, f: nat)
    requires IsRun(n, steps) && WithoutCompaction(steps) && l < n && f < n
    ensures Agree(PeerAt(n, steps, |steps|, l).logs, PeerAt(n, steps, |steps|, f).logs, 1)
  {
    hide IsRun, GuardedRun;
    PlainPrefixesAgree(n, steps, |steps|, l, |steps|, f);
  }

  /** Who acknowledged a leader's entry and is still in its term holds its log up to there. */
  lemma AckedAgree(c: Core, f: nat, t: nat, m: nat)
    requires CoreInv(c) && f < |c.nodes| && c.nodes[f].term == t && t in c.termLog && AckedTo(c, t, f, m)
    ensures Agree(c.termLog[t], c.nodes[f].log, m + 1)
  {
    hide InvVotes, InvLeaders;
    var k :| m <= k && Ack(t, f, k) in c.acks;
    assert GoodAck(c, Ack(t, f, k));
    assert Kept(c.termLog, c.nodes[f].log, t, k, t);
  }
}
