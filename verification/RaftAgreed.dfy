/** The one log that all servers of a guarded run hand to their services. */
module RaftAgreed {
  import opened RaftTypes
  import opened RaftPeer
  import opened RaftCompaction
  import opened RaftSystem
  import opened RaftSafety
  import opened RaftTheorems
  import opened RaftCommit
  import opened RaftRules

  /** How far server `i` had settled its log after the first `k` steps. */
  ghost function SettledAt(n: nat, steps: seq<Step>, k: nat, i: nat): nat
    requires IsRun(n, steps) && k <= |steps| && i < n
  {
    Settled(PeerAt(n, steps, k, i))
  }

  /** The server that has settled most at moment `k`, among the first `m`. */
  lemma {:induction false} FurthestServer(n: nat, steps: seq<Step>, k: nat, m: nat) returns (a: nat)
    requires IsRun(n, steps) && k <= |steps| && 0 < m <= n
    ensures a < m && forall i :: 0 <= i < m ==> SettledAt(n, steps, k, i) <= SettledAt(n, steps, k, a)
    decreases m
  {
    hide IsRun, SettledAt;
    a := m - 1;
    if m > 1 {
      var b := FurthestServer(n, steps, k, m - 1);
      if SettledAt(n, steps, k, b) > SettledAt(n, steps, k, a) {
        a := b;
      }
    }
  }

  /** The server and the moment that have settled most, up to moment `k`. */
  lemma {:induction false} FurthestMoment(n: nat, steps: seq<Step>, k: nat) returns (j: nat, a: nat)
    requires IsRun(n, steps) && k <= |steps| && n > 0
    ensures j <= k && a < n
    ensures forall l, i :: 0 <= l <= k && 0 <= i < n ==> SettledAt(n, steps, l, i) <= SettledAt(n, steps, j, a)
    decreases k
  {
    hide IsRun, SettledAt;
    a := FurthestServer(n, steps, k, n);
    j := k;
    if k > 0 {
      var l, b := FurthestMoment(n, steps, k - 1);
      if SettledAt(n, steps, l, b) > SettledAt(n, steps, k, a) {
        j, a := l, b;
      }
    }
  }

  /** There is one log of which every server, at every moment, has settled a prefix. */
  lemma OneAgreedLog(n: nat, steps: seq<Step>) returns (agreed: seq<Entry>)
    requires IsRun(n, steps) && GuardedRun(n, steps) && n > 0
    ensures forall k, i :: 0 <= k <= |steps| && 0 <= i < n ==>
              Agree(WholeLog(n, steps, k, i), agreed, SettledAt(n, steps, k, i) + 1)
  {
    hide IsRun, GuardedRun;
    var j, a := FurthestMoment(n, steps, |steps|);
    agreed := WholeLog(n, steps, j, a);
    forall k, i | 0 <= k <= |steps| && 0 <= i < n
      ensures Agree(WholeLog(n, steps, k, i), agreed, SettledAt(n, steps, k, i) + 1)
    {
      CommittedPrefixesAgree(n, steps, k, i, j, a);
    }
  }

  /** The messages hand out `agreed`, index after index, starting at `first`. */
  ghost predicate HandsOut(msgs: seq<ApplyMsg>, first: nat, agreed: seq<Entry>) {
    forall k :: 0 <= k < |msgs| ==>
      msgs[k].index == first + k < |agreed| && msgs[k].command == agreed[first + k].command
  }

  lemma ApplyHandsOut(p: Peer, full: seq<Entry>, agreed: seq<Entry>)
    requires Represents(p, full) && Agree(full, agreed, Settled(p) + 1) && Apply(p).Some?
    ensures HandsOut(Apply(p).value.1, Covered(p) + 1, agreed)
  {
  }

  /**
   One pass of the apply loop hands out exactly the commands of that log that are
   committed and not covered yet, index after index, and covers them.
   */
  lemma AppliesAgreedLog(n: nat, steps: seq<Step>, i: nat, agreed: seq<Entry>)
    requires IsRun(n, steps) && GuardedRun(n, steps) && i < n
    requires Agree(WholeLog(n, steps, |steps|, i), agreed, SettledAt(n, steps, |steps|, i) + 1)
    ensures var p := PeerAt(n, steps, |steps|, i);
            && Apply(p).Some?
            && var (q, msgs) := Apply(p).value;
               && HandsOut(msgs, Covered(p) + 1, agreed) && |msgs| == Max(0, p.commitIndex - Covered(p))
               && Covered(q) == Max(Covered(p), p.commitIndex)
  {
    hide IsRun, GuardedRun, Apply, HandsOut, Represents;
    var p, full := PeerAt(n, steps, |steps|, i), WholeLog(n, steps, |steps|, i);
    ApplyRule(p, full);
    ApplyHandsOut(p, full, agreed);
  }
}
