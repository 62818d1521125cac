/** From Raft to the store: what the servers' stores are in a run of the cluster without compaction. */
module RaftToStore {
  import opened RaftTypes
  import opened RaftPeer
  import opened RaftSystem
  import opened RaftSafety
  import opened RaftTheorems
  import opened RaftCommit
  import opened RaftAgreed
  import opened KvStore

  /** A command reaches the store; an entry without one passes it by. */
  function Hand(s: Store, command: Command): Store {
    match command
    case NoCommand => s
    case Client(op) => ApplyOp(s, op)
  }

  function HandAll(s: Store, msgs: seq<ApplyMsg>): Store {
    if msgs == [] then s else Hand(HandAll(s, msgs[..|msgs| - 1]), msgs[|msgs| - 1].command)
  }

  function MsgsOf(p: Peer): seq<ApplyMsg> {
    if Apply(p).Some? then Apply(p).value.1 else []
  }

  /** The store of server `i`: fed by its apply loop, lost in a crash. */
  ghost function StoreAfter(n: nat, steps: seq<Step>, i: nat): Store
    requires IsRun(n, steps) && i < n
    decreases |steps|
  {
    if steps == [] then EMPTY
    else
      var before, step := steps[..|steps| - 1], steps[|steps| - 1];
      RunSize(n, before);
      if step == ApplyLog(i) then HandAll(StoreAfter(n, before, i), MsgsOf(After(n, before).peers[i]))
      else if step == Crash(i) then EMPTY
      else StoreAfter(n, before, i)
  }

  /** The commands of the first `n` entries. */
  function Commands(log: seq<Entry>, n: nat): seq<Op>
    requires n <= |log|
  {
    if n == 0 then []
    else
      match log[n - 1].command
      case NoCommand => Commands(log, n - 1)
      case Client(op) => Commands(log, n - 1) + [op]
  }

  /** The store after the entries up to index `k`. */
  function FoldTo(log: seq<Entry>, k: nat): Store
    requires k <= |log|
  {
    Fold(Commands(log, k), |Commands(log, k)|)
  }

  lemma FoldStep(log: seq<Entry>, k: nat)
    requires k < |log|
    ensures FoldTo(log, k + 1) == Hand(FoldTo(log, k), log[k].command)
  {
    match log[k].command
    case NoCommand =>
    case Client(op) =>
      var ops := Commands(log, k);
      assert (ops + [op])[..|ops|] == ops;
      FoldPrefix(ops, ops + [op], |ops|);
  }

  /** Handing out consecutive entries moves the store along the log. */
  lemma {:induction false} HandsAlong(log: seq<Entry>, first: nat, msgs: seq<ApplyMsg>)
    requires HandsOut(msgs, first, log) && first <= |log|
    ensures first + |msgs| <= |log| && HandAll(FoldTo(log, first), msgs) == FoldTo(log, first + |msgs|)
    decreases |msgs|
  {
    if msgs != [] {
      var k := |msgs| - 1;
      HandsAlong(log, first, msgs[..k]);
      assert msgs[k].index == first + k < |log| && msgs[k].command == log[first + k].command;
      FoldStep(log, first + k);
    }
  }

  /** Only the apply loop and a crash change how much a peer has applied. */
  lemma AppliedStays(s: System, step: Step, i: nat)
    requires Shaped(s) && Enabled(s, step) && i < |s.peers| && step != ApplyLog(i) && step != Crash(i)
    ensures i < |Do(s, step).peers| && Do(s, step).peers[i].lastApplied == s.peers[i].lastApplied
  {
    hide MatchLen, RunStart, Matched, Merge;
  }

  /** What the apply loop does to the applied index. */
  lemma AppliedMoves(p: Peer)
    requires p.snapshotIndex == 0 && p.lastApplied <= p.commitIndex && Apply(p).Some?
    ensures Apply(p).value.0.lastApplied == p.lastApplied + |MsgsOf(p)|
  {
  }

  lemma AppliedAtMostCommitted(n: nat, steps: seq<Step>, k: nat, i: nat)
    requires IsRun(n, steps) && WithoutCompaction(steps) && k <= |steps| && i < n
    ensures var p := PeerAt(n, steps, k, i); p.snapshotIndex == 0 && p.lastApplied <= p.commitIndex
  {
    hide IsRun;
    PlainPeerFacts(n, steps, k, i);
  }

  /** Every server has at every moment committed a prefix of `log`. */
  ghost predicate IsAgreed(n: nat, steps: seq<Step>, log: seq<Entry>)
    requires IsRun(n, steps)
  {
    forall k: nat, i: nat :: k <= |steps| && i < n ==>
      Agree(PeerAt(n, steps, k, i).logs, log, PeerAt(n, steps, k, i).commitIndex + 1)
  }

  lemma StartsEmpty(n: nat, steps: seq<Step>, i: nat, log: seq<Entry>)
    requires IsRun(n, steps) && i < n && IsAgreed(n, steps, log)
    ensures |log| > 0 && FoldTo(log, 1) == EMPTY && PeerAt(n, steps, 0, i).lastApplied == 0
  {
    var p := PeerAt(n, steps, 0, i);
    assert steps[..0] == [];
    assert p == Fresh(i, n);
    assert Agree(p.logs, log, p.commitIndex + 1);
    assert log[0] == p.logs[0] == DUMMY;
    FoldStep(log, 0);
  }

  lemma LastStep(n: nat, steps: seq<Step>)
    requires IsRun(n, steps) && steps != []
    ensures var before, step := steps[..|steps| - 1], steps[|steps| - 1];
            && IsRun(n, before) && Shaped(After(n, before)) && Enabled(After(n, before), step)
            && After(n, steps) == Do(After(n, before), step)
  {
    hide Do, Enabled, Shaped;
  }

  lemma RunSplits(n: nat, steps: seq<Step>, k: nat)
    requires IsRun(n, steps) && 0 < k <= |steps|
    ensures IsRun(n, steps[..k]) && IsRun(n, steps[..k - 1])
    ensures var s, step := After(n, steps[..k - 1]), steps[k - 1];
            Shaped(s) && Enabled(s, step) && After(n, steps[..k]) == Do(s, step)
            && |s.peers| == n == |Do(s, step).peers|
  {
    hide Do, Enabled, Shaped, IsRun, After, CoreAfter;
    RunPrefix(n, steps, k);
    RunPrefix(n, steps, k - 1);
    LastStep(n, steps[..k]);
    var now := steps[..k];
    assert now[..|now| - 1] == steps[..k - 1] && now[|now| - 1] == steps[k - 1];
    RunSize(n, steps[..k - 1]);
    RunSize(n, steps[..k]);
  }

  lemma StoreSplits(n: nat, steps: seq<Step>, k: nat, i: nat)
    requires IsRun(n, steps) && 0 < k <= |steps| && i < n && IsRun(n, steps[..k]) && IsRun(n, steps[..k - 1])
    requires |After(n, steps[..k - 1]).peers| == n
    ensures var s, step, st := After(n, steps[..k - 1]), steps[k - 1], StoreAfter(n, steps[..k - 1], i);
            StoreAfter(n, steps[..k], i) ==
              if step == ApplyLog(i) then HandAll(st, MsgsOf(s.peers[i])) else if step == Crash(i) then EMPTY else st
  {
    hide IsRun, After, MsgsOf, HandAll;
    var now := steps[..k];
    assert now[..|now| - 1] == steps[..k - 1] && now[|now| - 1] == steps[k - 1];
  }

  /** One step of the run, seen from server `i`. */
  lemma RunStep(n: nat, steps: seq<Step>, k: nat, i: nat)
    requires IsRun(n, steps) && 0 < k <= |steps| && i < n
    ensures IsRun(n, steps[..k]) && IsRun(n, steps[..k - 1])
    ensures var s, step := After(n, steps[..k - 1]), steps[k - 1];
            && Shaped(s) && Enabled(s, step) && i < |s.peers| && s.peers[i] == PeerAt(n, steps, k - 1, i)
            && i < |Do(s, step).peers| && Do(s, step).peers[i] == PeerAt(n, steps, k, i)
    ensures var s, step, st := After(n, steps[..k - 1]), steps[k - 1], StoreAfter(n, steps[..k - 1], i);
            StoreAfter(n, steps[..k], i) ==
              if step == ApplyLog(i) then HandAll(st, MsgsOf(s.peers[i])) else if step == Crash(i) then EMPTY else st
  {
    hide Do, Enabled, Shaped, MsgsOf, HandAll, IsRun, After, StoreAfter;
    RunSplits(n, steps, k);
    StoreSplits(n, steps, k, i);
  }

  /** At every moment, a server's store is the fold of the agreed log up to what it has applied. */
  lemma {:induction false} StoreFollowsLog(n: nat, steps: seq<Step>, k: nat, i: nat, log: seq<Entry>)
    requires IsRun(n, steps) && WithoutCompaction(steps) && k <= |steps| && i < n && IsAgreed(n, steps, log)
    ensures IsRun(n, steps[..k])
    ensures var a := PeerAt(n, steps, k, i).lastApplied;
            a < |log| && StoreAfter(n, steps[..k], i) == FoldTo(log, a + 1)
    decreases k
  {
    hide IsRun, StoreAfter, FoldTo, HandAll, Do, Enabled, Shaped, WithoutCompaction, IsAgreed, Apply, MsgsOf;
    StartsEmpty(n, steps, i, log);
    if k == 0 {
      EmptyRun(n, steps, i);
    } else {
      RunStep(n, steps, k, i);
      StoreFollowsLog(n, steps, k - 1, i, log);
      var s, step := After(n, steps[..k - 1]), steps[k - 1];
      if step == ApplyLog(i) {
        ApplyStep(n, steps, k, i, log);
      } else if step == Crash(i) {
        CrashStep(s, i);
      } else {
        AppliedStays(s, step, i);
      }
    }
  }

  lemma EmptyRun(n: nat, steps: seq<Step>, i: nat)
    requires IsRun(n, steps) && i < n
    ensures IsRun(n, steps[..0]) && StoreAfter(n, steps[..0], i) == EMPTY
  {
    assert steps[..0] == [];
  }

  lemma CrashStep(s: System, i: nat)
    requires Shaped(s) && Enabled(s, Crash(i)) && i < |s.peers|
    ensures i < |Do(s, Crash(i)).peers| && Do(s, Crash(i)).peers[i].lastApplied == 0
  {
  }

  lemma ApplyResult(s: System, i: nat)
    requires Shaped(s) && Enabled(s, ApplyLog(i)) && i < |s.peers|
    ensures Apply(s.peers[i]).Some?
    ensures i < |Do(s, ApplyLog(i)).peers| && Do(s, ApplyLog(i)).peers[i] == Apply(s.peers[i]).value.0
  {
  }

  lemma PlainHandsOut(p: Peer, log: seq<Entry>)
    requires p.snapshotIndex == 0 && Agree(p.logs, log, p.commitIndex + 1) && Apply(p).Some?
    ensures HandsOut(Apply(p).value.1, p.lastApplied + 1, log)
  {
  }

  lemma ApplyStep(n: nat, steps: seq<Step>, k: nat, i: nat, log: seq<Entry>)
    requires IsRun(n, steps) && WithoutCompaction(steps) && 0 < k <= |steps| && i < n && IsAgreed(n, steps, log)
    requires steps[k - 1] == ApplyLog(i) && PeerAt(n, steps, k - 1, i).lastApplied < |log|
    ensures var p, q := PeerAt(n, steps, k - 1, i), PeerAt(n, steps, k, i);
            q.lastApplied < |log|
            && HandAll(FoldTo(log, p.lastApplied + 1), MsgsOf(p)) == FoldTo(log, q.lastApplied + 1)
  {
    hide IsRun, WithoutCompaction, FoldTo, HandAll, HandsOut, Do, Enabled, Shaped, Apply, Agree, StoreAfter;
    var p := PeerAt(n, steps, k - 1, i);
    RunStep(n, steps, k, i);
    ApplyResult(After(n, steps[..k - 1]), i);
    AppliedAtMostCommitted(n, steps, k - 1, i);
    PlainHandsOut(p, log);
    AppliedMoves(p);
    HandsAlong(log, p.lastApplied + 1, MsgsOf(p));
  }

  lemma {:induction false} CommandsPrefix(log: seq<Entry>, k: nat, m: nat)
    requires k <= m <= |log|
    ensures Commands(log, k) <= Commands(log, m)
    decreases m
  {
    if k < m {
      CommandsPrefix(log, k, m - 1);
    }
  }

  /** After `k` steps the store of server `i` is the fold of a prefix of `commands`. */
  ghost predicate StoreOk(n: nat, steps: seq<Step>, commands: seq<Op>, k: nat, i: nat)
    requires k <= |steps| && i < n
  {
    IsRun(n, steps[..k]) && FoldOfPrefix(commands, StoreAfter(n, steps[..k], i))
  }

  lemma PlainAgreedLog(n: nat, steps: seq<Step>) returns (log: seq<Entry>)
    requires IsRun(n, steps) && WithoutCompaction(steps) && n > 0
    ensures IsAgreed(n, steps, log)
  {
    hide IsRun, GuardedRun, WithoutCompaction;
    PlainRunGuarded(n, steps);
    log := OneAgreedLog(n, steps);
    forall k: nat, i: nat | k <= |steps| && i < n
      ensures Agree(PeerAt(n, steps, k, i).logs, log, PeerAt(n, steps, k, i).commitIndex + 1)
    {
      PlainPeerFacts(n, steps, k, i);
      assert Agree(WholeLog(n, steps, k, i), log, SettledAt(n, steps, k, i) + 1);
    }
  }

  lemma PlainRunGuarded(n: nat, steps: seq<Step>)
    requires IsRun(n, steps) && WithoutCompaction(steps)
    ensures GuardedRun(n, steps)
  {
    PlainAfter(n, steps);
  }

  /** There is one sequence of commands of which every server's store is, at every moment, the fold of a prefix. */
  lemma StoresFollowOneLog(n: nat, steps: seq<Step>) returns (commands: seq<Op>)
    requires IsRun(n, steps) && WithoutCompaction(steps) && n > 0
    ensures forall k: nat, i: nat :: k <= |steps| && i < n ==> StoreOk(n, steps, commands, k, i)
  {
    var log := PlainAgreedLog(n, steps);
    commands := Commands(log, |log|);
    hide IsRun, WithoutCompaction, IsAgreed, StoreAfter;
    forall k: nat, i: nat | k <= |steps| && i < n ensures StoreOk(n, steps, commands, k, i) {
      StoreFollowsLog(n, steps, k, i, log);
      PrefixFold(log, PeerAt(n, steps, k, i).lastApplied + 1);
    }
  }

  /** `s` is what the first few commands make of the empty store. */
  ghost predicate FoldOfPrefix(commands: seq<Op>, s: Store) {
    exists m: nat :: m <= |commands| && s == Fold(commands, m)
  }

  lemma PrefixFold(log: seq<Entry>, k: nat)
    requires k <= |log|
    ensures FoldOfPrefix(Commands(log, |log|), FoldTo(log, k))
  {
    var ops, all := Commands(log, k), Commands(log, |log|);
    CommandsPrefix(log, k, |log|);
    assert all[..|ops|] == ops;
    FoldPrefix(ops, all, |ops|);
  }
}
