/**
 From every state that a cluster without compaction can reach, any command can
 still be committed and applied by all servers, without a crash.
 */
module RaftProgress {
  import opened RaftTypes
  import opened RaftPeer
  import opened RaftCompaction
  import opened RaftSystem
  import opened RaftSafety
  import opened RaftTheorems
  import opened RaftCommit
  import opened RaftRules
  import opened RaftBackup
  import opened RaftCatchUp
  import opened RaftOwnIndex
  import opened RaftElect

  // ---------------------------------------------------------------- replication

  /** No follower is left from `k` on. */
  predicate NoneLeft(n: nat, l: nat, k: nat) {
    k >= n || (k == n - 1 && l == k)
  }

  /** The leader's last entry holds the command, the followers below `k` have it, and then it is committed. */
  predicate Spreading(p: Peer, n: nat, l: nat, last: nat, command: Command, k: nat) {
    && p.snapshotIndex == 0 && |p.logs| == last + 1 && p.logs[last].term == p.term && p.logs[last].command == command
    && |p.matchIndex| == n == |p.nextIndex| && l < n && p.matchIndex[l] == last && p.commitIndex <= last
    && (forall j :: 0 <= j < n && j != l ==> if j < k then p.matchIndex[j] == last else p.matchIndex[j] < last)
    && (NoneLeft(n, l, k) ==> p.commitIndex == last)
  }

  /** Nobody has applied that far. */
  ghost predicate Replicated(n: nat, steps: seq<Step>, l: nat, last: nat, command: Command, k: nat)
    requires IsRun(n, steps)
  {
    && Reigns(n, steps, l) && Spreading(Now(n, steps, l), n, l, last, command, k)
    && (forall j :: 0 <= j < n ==> Now(n, steps, j).lastApplied < last)
  }

  /** What a leader nobody is beyond knows of itself and of the others. */
  lemma ReignFacts(n: nat, steps: seq<Step>, l: nat, j: nat)
    requires Plain(n, steps) && Reigns(n, steps, l) && j < n
    ensures GuardedRun(n, steps)
    ensures var p, f := Now(n, steps, l), Now(n, steps, j);
            && p.snapshotIndex == 0 == f.snapshotIndex && |p.logs| > 0 && f.lastApplied <= f.commitIndex < |f.logs|
            && f.commitIndex < |p.logs| && p.commitIndex < |p.logs|
            && WellFormed(p, n) && p.me == l && p.matchIndex[l] == p.Last() && p.matchIndex[j] < |p.logs|
            && 1 <= p.nextIndex[j] <= |p.logs|
            && p.logs == LogIn(n, steps, l) && f.logs == LogIn(n, steps, j)
  {
    hide IsRun, WithoutCompaction, GuardedRun, Committed, WholeLog;
    PlainPeerFacts(n, steps, |steps|, l);
    PlainPeerFacts(n, steps, |steps|, j);
    LeaderKnowsItself(n, steps, l);
    MatchIndexSound(n, steps, l, j);
    LeadersHoldCommitted(n, steps, |steps|, j, l);
  }

  /** The leader takes the command. */
  lemma Submits(n: nat, steps: seq<Step>, l: nat, command: Command)
    requires Plain(n, steps) && Reigns(n, steps, l)
    ensures Plain(n, steps + [ClientStart(l, command)])
    ensures After(n, steps).applied <= After(n, steps + [ClientStart(l, command)]).applied
    ensures Replicated(n, steps + [ClientStart(l, command)], l, |Now(n, steps, l).logs|, command, 0)
  {
    hide IsRun, WithoutCompaction, PeerAt;
    NowIs(n, steps);
    forall j | 0 <= j < n
      ensures var p, f := Now(n, steps, l), Now(n, steps, j);
              && p.snapshotIndex == 0 && WellFormed(p, n) && p.me == l && f.lastApplied < |p.logs|
              && p.commitIndex < |p.logs| && p.matchIndex[j] < |p.logs|
    {
      ReignFacts(n, steps, l, j);
    }
    OneStep(n, steps, ClientStart(l, command));
    SubmittedOnce(n, steps, l, command);
  }

  lemma SubmittedOnce(n: nat, steps: seq<Step>, l: nat, command: Command)
    requires Plain(n, steps) && Reigns(n, steps, l) && IsRun(n, steps + [ClientStart(l, command)])
    requires var p := Now(n, steps, l);
             && p.snapshotIndex == 0 && WellFormed(p, n) && p.me == l && p.commitIndex < |p.logs|
             && (forall j :: 0 <= j < n ==> Now(n, steps, j).lastApplied < |p.logs| && p.matchIndex[j] < |p.logs|)
             && Now(n, steps + [ClientStart(l, command)], l) == Propose(p, command)
    requires forall j :: 0 <= j < n && j != l ==> Now(n, steps + [ClientStart(l, command)], j) == Now(n, steps, j)
    ensures Replicated(n, steps + [ClientStart(l, command)], l, |Now(n, steps, l).logs|, command, 0)
  {
    hide IsRun, PeerAt;
    var p, q := Now(n, steps, l), Now(n, steps + [ClientStart(l, command)], l);
    assert forall j :: 0 <= j < n && j != l ==> q.matchIndex[j] == p.matchIndex[j];
  }

  lemma AllMatched(matchIndex: seq<nat>, m: nat, n: nat)
    requires |matchIndex| == n && n >= 2 && forall j :: 0 <= j < n ==> matchIndex[j] >= m
    ensures Majority(Matched(matchIndex, m), n)
  {
    var q := Matched(matchIndex, m);
    FullSize(q, n);
  }

  lemma {:induction false} FullSize(q: set<nat>, n: nat)
    requires forall j: nat :: j < n ==> j in q
    ensures |q| >= n
    decreases n
  {
    if n > 0 {
      FullSize(q - {n - 1}, n - 1);
      assert |q - {n - 1}| == |q| - 1;
    }
  }

  /** What rounds with follower `k` make of the leader. */
  lemma SpreadOnce(d: Duo, e: Duo, n: nat, l: nat, last: nat, command: Command, k: nat)
    requires n >= 2 && Paired(d, k) && Paired(e, k) && CaughtUp(e, k) && Grown(d, e, k)
    requires Spreading(d.leader, n, l, last, command, k) && k < n && k != l
    ensures Spreading(e.leader, n, l, last, command, k + 1)
  {
    hide Matched;
    var p, q := d.leader, e.leader;
    assert q.logs == p.logs && q.matchIndex[k] == last && q.matchIndex[l] == p.matchIndex[l];
    assert forall j :: 0 <= j < n && j != k ==> q.matchIndex[j] == p.matchIndex[j];
    if NoneLeft(n, l, k + 1) {
      AllMatched(q.matchIndex, last, n);
    }
  }

  lemma ReplicatedOnce(n: nat, steps: seq<Step>, more: seq<Step>, l: nat, last: nat, command: Command, k: nat)
    requires Plain(n, steps) && Plain(n, steps + more) && Replicated(n, steps, l, last, command, k) && k < n && k != l
    requires var d, e := DuoIn(n, steps, l, k), DuoIn(n, steps + more, l, k);
             Paired(d, k) && Paired(e, k) && CaughtUp(e, k) && Grown(d, e, k)
    requires OthersStay(n, steps, more, l, k)
    ensures Replicated(n, steps + more, l, last, command, k + 1)
  {
    hide IsRun, PeerAt, WithoutCompaction, Spreading, CanCommit, CaughtUp;
    SpreadOnce(DuoIn(n, steps, l, k), DuoIn(n, steps + more, l, k), n, l, last, command, k);
    ReignsOn(n, steps, more, l, k);
  }

  /** Rounds with follower `k` leave the leader in office, and nothing applied. */
  lemma ReignsOn(n: nat, steps: seq<Step>, more: seq<Step>, l: nat, k: nat)
    requires IsRun(n, steps) && IsRun(n, steps + more) && Reigns(n, steps, l) && k < n && k != l
    requires var d, e := DuoIn(n, steps, l, k), DuoIn(n, steps + more, l, k); Paired(d, k) && Grown(d, e, k)
    requires OthersStay(n, steps, more, l, k)
    ensures Reigns(n, steps + more, l)
    ensures forall j :: 0 <= j < n ==> Now(n, steps + more, j).lastApplied == Now(n, steps, j).lastApplied
  {
    hide IsRun, PeerAt, CanCommit;
    forall j | 0 <= j < n
      ensures Now(n, steps + more, j).lastApplied == Now(n, steps, j).lastApplied
      ensures Now(n, steps + more, j).term <= Now(n, steps + more, l).term
    {
      if j != l && j != k {
        assert Now(n, steps + more, j) == Now(n, steps, j);
      }
    }
  }

  /** The leader may probe any follower. */
  lemma CanCatchUp(n: nat, steps: seq<Step>, l: nat, k: nat)
    requires Plain(n, steps) && Reigns(n, steps, l) && k < n && k != l
    ensures GuardedRun(n, steps) && PeerAt(n, steps, |steps|, l).role == Leader
    ensures PeerAt(n, steps, |steps|, k).term <= PeerAt(n, steps, |steps|, l).term
    ensures var d := DuoIn(n, steps, l, k);
            && Paired(d, k) && GoodStart(d, LogIn(n, steps, l), k, LogIn(n, steps, k))
            && !Stuck(d, LogIn(n, steps, l), LogIn(n, steps, k))
  {
    hide IsRun, PeerAt, WithoutCompaction, GuardedRun, WholeLog;
    ReignFacts(n, steps, l, k);
  }

  lemma TradesOnward(n: nat, steps: seq<Step>, more: seq<Step>)
    requires Plain(n, steps) && IsRun(n, steps + more) && Exchanges(more)
    requires After(n, steps).applied <= After(n, steps + more).applied
    ensures Onward(n, steps, more)
  {
    hide IsRun;
  }

  /** Probes and answers with one follower. */
  lemma TradesWith(n: nat, steps: seq<Step>, l: nat, k: nat) returns (more: seq<Step>)
    requires Plain(n, steps) && Reigns(n, steps, l) && k < n && k != l
    ensures Onward(n, steps, more) && OthersStay(n, steps, more, l, k)
    ensures var d, e := DuoIn(n, steps, l, k), DuoIn(n, steps + more, l, k);
            Paired(d, k) && Paired(e, k) && CaughtUp(e, k) && Grown(d, e, k)
    ensures Agree(LogIn(n, steps + more, k), LogIn(n, steps + more, l), |LogIn(n, steps + more, l)|)
  {
    hide IsRun, WithoutCompaction, PeerAt, GuardedRun, CaughtUp, Grown, Stuck, OthersStay, Agree, WholeLog, Reigns;
    CanCatchUp(n, steps, l, k);
    more := CatchUpInRuns(n, steps, l, k);
    TradesOnward(n, steps, more);
  }

  lemma {:induction false} Replicates(n: nat, steps: seq<Step>, l: nat, last: nat, command: Command, k: nat)
    returns (more: seq<Step>)
    requires Plain(n, steps) && k <= n && Replicated(n, steps, l, last, command, k)
    ensures Onward(n, steps, more) && Replicated(n, steps + more, l, last, command, n)
    decreases n - k
  {
    hide IsRun, WithoutCompaction, PeerAt, CaughtUp, Grown, OthersStay, Agree, WholeLog, Reigns, Paired;
    if k == n {
      NothingMore(n, steps);
      more := [];
    } else if k == l {
      more := Replicates(n, steps, l, last, command, k + 1);
    } else {
      var first := TradesWith(n, steps, l, k);
      ReplicatedOnce(n, steps, first, l, last, command, k);
      var rest := Replicates(n, steps + first, l, last, command, k + 1);
      OnwardOn(n, steps, first, rest);
      more := first + rest;
    }
  }

  // ---------------------------------------------------------------- commitment

  /** The servers below `k`, and the leader, know that the entry at `last`, with the command, is committed. */
  ghost predicate Known(n: nat, steps: seq<Step>, l: nat, last: nat, command: Command, k: nat)
    requires IsRun(n, steps)
  {
    && Replicated(n, steps, l, last, command, n)
    && (forall j :: 0 <= j < n && (j < k || j == l) ==> Has(Now(n, steps, j), last, command))
  }

  predicate Has(p: Peer, last: nat, command: Command) {
    p.commitIndex >= last && |p.logs| > last && p.logs[last].command == command
  }

  lemma SpreadAgain(d: Duo, e: Duo, n: nat, l: nat, last: nat, command: Command, k: nat)
    requires Paired(d, k) && Paired(e, k) && CaughtUp(e, k) && Grown(d, e, k)
    requires Spreading(d.leader, n, l, last, command, n) && k < n && k != l
    ensures Spreading(e.leader, n, l, last, command, n) && e.follower.commitIndex >= last
  {
    hide Matched;
    var p, q := d.leader, e.leader;
    assert q.logs == p.logs && q.matchIndex[k] == last && q.matchIndex[l] == p.matchIndex[l];
    assert forall j :: 0 <= j < n && j != k ==> q.matchIndex[j] == p.matchIndex[j];
  }

  lemma KnownOnce(n: nat, steps: seq<Step>, more: seq<Step>, l: nat, last: nat, command: Command, k: nat)
    requires Plain(n, steps) && Plain(n, steps + more) && Known(n, steps, l, last, command, k) && k < n && k != l
    requires var d, e := DuoIn(n, steps, l, k), DuoIn(n, steps + more, l, k);
             Paired(d, k) && Paired(e, k) && CaughtUp(e, k) && Grown(d, e, k)
    requires OthersStay(n, steps, more, l, k)
    requires Agree(LogIn(n, steps + more, k), LogIn(n, steps + more, l), |LogIn(n, steps + more, l)|)
    ensures Known(n, steps + more, l, last, command, k + 1)
  {
    hide IsRun, PeerAt, WithoutCompaction, CanCommit, CaughtUp, Grown, WholeLog;
    var d, e := DuoIn(n, steps, l, k), DuoIn(n, steps + more, l, k);
    SpreadAgain(d, e, n, l, last, command, k);
    ReignsOn(n, steps, more, l, k);
    ReignFacts(n, steps + more, l, k);
    forall j | 0 <= j < n && (j < k + 1 || j == l) ensures Has(Now(n, steps + more, j), last, command) {
      if j != k && j != l {
        assert Now(n, steps + more, j) == Now(n, steps, j);
      }
    }
  }

  lemma {:induction false} Announces(n: nat, steps: seq<Step>, l: nat, last: nat, command: Command, k: nat)
    returns (more: seq<Step>)
    requires Plain(n, steps) && k <= n && Known(n, steps, l, last, command, k)
    ensures Onward(n, steps, more) && Known(n, steps + more, l, last, command, n)
    decreases n - k
  {
    hide IsRun, WithoutCompaction, PeerAt, CaughtUp, Grown, OthersStay, Agree, WholeLog, Reigns, Paired, Has, Spreading;
    if k == n {
      NothingMore(n, steps);
      more := [];
    } else if k == l {
      more := Announces(n, steps, l, last, command, k + 1);
    } else {
      var first := TradesWith(n, steps, l, k);
      KnownOnce(n, steps, first, l, last, command, k);
      var rest := Announces(n, steps + first, l, last, command, k + 1);
      OnwardOn(n, steps, first, rest);
      more := first + rest;
    }
  }

  // ---------------------------------------------------------------- applying

  /** Server `j` has applied the command at `last`, and not gone back since. */
  ghost predicate HasApplied(n: nat, steps: seq<Step>, j: nat, last: nat, command: Command)
    requires IsRun(n, steps) && j < n
  {
    && Applied(j, last, command) in After(n, steps).applied
    && Has(Now(n, steps, j), last, command) && Now(n, steps, j).lastApplied >= last
  }

  /** Servers below `k` have applied the command at `last`, the others still can. */
  ghost predicate AppliedBelow(n: nat, steps: seq<Step>, last: nat, command: Command, k: nat)
    requires IsRun(n, steps)
  {
    && (forall j :: 0 <= j < n && j < k ==> HasApplied(n, steps, j, last, command))
    && (forall j :: k <= j < n ==> Has(Now(n, steps, j), last, command) && Now(n, steps, j).lastApplied < last)
  }

  lemma HandsItOut(p: Peer, last: nat, command: Command, i: nat)
    requires p.snapshotIndex == 0 && Has(p, last, command) && p.lastApplied < last && p.commitIndex < |p.logs|
    requires Represents(p, p.logs)
    ensures Apply(p).Some? && Applied(i, last, command) in Handed(i, Apply(p).value.1)
    ensures var q := Apply(p).value.0; q == p.(lastApplied := q.lastApplied) && q.lastApplied >= last
  {
    hide Apply, Represents;
    ApplyRule(p, p.logs);
    var msgs, k := Apply(p).value.1, last - p.lastApplied - 1;
    assert msgs[k] == ApplyMsg(last, command);
  }

  lemma {:induction false} Applies(
    n: nat, steps: seq<Step>, last: nat, command: Command, k: nat) returns (more: seq<Step>)
    requires Plain(n, steps) && k <= n && AppliedBelow(n, steps, last, command, k)
    ensures Onward(n, steps, more) && AppliedBelow(n, steps + more, last, command, n)
    decreases n - k
  {
    hide IsRun, WithoutCompaction, PeerAt, Apply, Has, HasApplied;
    if k == n {
      NothingMore(n, steps);
      more := [];
    } else {
      OneApplies(n, steps, last, command, k);
      var first := [ApplyLog(k)];
      var rest := Applies(n, steps + first, last, command, k + 1);
      OnwardOn(n, steps, first, rest);
      more := first + rest;
    }
  }

  lemma OneApplies(n: nat, steps: seq<Step>, last: nat, command: Command, k: nat)
    requires Plain(n, steps) && k < n && AppliedBelow(n, steps, last, command, k)
    ensures Onward(n, steps, [ApplyLog(k)]) && AppliedBelow(n, steps + [ApplyLog(k)], last, command, k + 1)
  {
    hide IsRun, WithoutCompaction, PeerAt, Apply, Has, Handed, WholeLog, Represents;
    PlainNow(n, steps, k);
    HandsItOut(Now(n, steps, k), last, command, k);
    NowIs(n, steps);
    OneOnward(n, steps, ApplyLog(k));
    var more := steps + [ApplyLog(k)];
    HasStill(Now(n, steps, k), Now(n, more, k), last, command);
    forall j | 0 <= j < n && j < k + 1 ensures HasApplied(n, more, j, last, command) {
      if j < k {
        assert HasApplied(n, steps, j, last, command) && Now(n, more, j) == Now(n, steps, j);
      }
    }
    assert forall j :: k + 1 <= j < n ==> Now(n, more, j) == Now(n, steps, j);
  }

  lemma HasStill(p: Peer, q: Peer, last: nat, command: Command)
    requires Has(p, last, command) && q.logs == p.logs && q.commitIndex == p.commitIndex
    ensures Has(q, last, command)
  {
  }

  lemma PlainNow(n: nat, steps: seq<Step>, k: nat)
    requires Plain(n, steps) && k < n
    ensures var p := Now(n, steps, k); p.snapshotIndex == 0 && Represents(p, p.logs) && p.commitIndex < |p.logs|
  {
    hide IsRun, WithoutCompaction, Represents;
    PlainPeerFacts(n, steps, |steps|, k);
  }

  // ---------------------------------------------------------------- progress

  /** All servers have applied the command at one index. */
  ghost predicate AppliedEverywhere(n: nat, steps: seq<Step>, index: nat, command: Command)
    requires IsRun(n, steps)
  {
    forall j :: 0 <= j < n ==> HasApplied(n, steps, j, index, command)
  }

  /** The only command started is this one. */
  predicate Starts(steps: seq<Step>, command: Command) {
    forall k :: 0 <= k < |steps| ==>
      !steps[k].Crash? && !steps[k].CompactLog? && (steps[k].ClientStart? ==> steps[k].command == command)
  }

  /** Once a leader has the command, all servers can apply it. */
  lemma Decides(n: nat, steps: seq<Step>, l: nat, index: nat, command: Command) returns (more: seq<Step>)
    requires Plain(n, steps) && Replicated(n, steps, l, index, command, 0)
    ensures Onward(n, steps, more) && AppliedEverywhere(n, steps + more, index, command)
  {
    hide IsRun, WithoutCompaction, Reigns, Has, Spreading, PeerAt;
    var a := Replicates(n, steps, l, index, command, 0);
    LeaderHas(n, steps + a, l, index, command);
    var b := Announces(n, steps + a, l, index, command, 0);
    OnwardOn(n, steps, a, b);
    var c := Applies(n, steps + a + b, index, command, 0);
    OnwardOn(n, steps, a + b, c);
    more := a + b + c;
  }

  /**
   In every run without compaction of two servers or more, and for every command,
   the cluster can go on, without a crash, to elect a leader, have it take the
   command, replicate and commit it, and have all servers apply it at one index.
   */
  lemma Progress(n: nat, steps: seq<Step>, command: Command) returns (more: seq<Step>, index: nat)
    requires n >= 2 && IsRun(n, steps) && WithoutCompaction(steps)
    ensures IsRun(n, steps + more) && Starts(more, command)
    ensures AppliedEverywhere(n, steps + more, index, command)
  {
    hide IsRun, WithoutCompaction, Reigns, PeerAt, Replicated, AppliedEverywhere, Calm, Starts;
    var a, l := SomebodyReigns(n, steps);
    Submits(n, steps + a, l, command);
    index := |Now(n, steps + a, l).logs|;
    var b := [ClientStart(l, command)];
    var c := Decides(n, steps + a + b, l, index, command);
    more := a + b + c;
    assert steps + more == steps + a + b + c;
    StartsOnce(a, b, c, l, command);
  }

  lemma StartsOnce(a: seq<Step>, b: seq<Step>, c: seq<Step>, l: nat, command: Command)
    requires Calm(a) && b == [ClientStart(l, command)] && Calm(c)
    ensures Starts(a + b + c, command)
  {
  }

  lemma LeaderHas(n: nat, steps: seq<Step>, l: nat, last: nat, command: Command)
    requires Plain(n, steps) && Replicated(n, steps, l, last, command, n)
    ensures Known(n, steps, l, last, command, 0)
  {
    hide IsRun, PeerAt;
  }
}
