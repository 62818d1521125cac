/**
 A guarded run that ends with a follower its leader cannot reach: it has compacted
 further than the leader and holds one more entry of the same term, in place of
 which the leader has another. Every probe is refused, in a circle.
 */
module RaftStuck {
  import opened RaftTypes
  import opened RaftCore
  import opened RaftPeer
  import opened RaftCompaction
  import opened RaftSystem
  import RaftInvariant
  import opened RaftSafety
  import opened RaftTheorems
  import opened RaftCommit
  import opened RaftRuns
  import opened RaftBackup
  import opened RaftCatchUp
  import O = RaftOverrun

  const OTHER_E2 := Entry(2, 2, O.OTHER)
  const P0_STARTED := Peer(0, 2, 0, 0, [DUMMY, O.E1, OTHER_E2], 0, 0, [3, 2, 2], [2, 0, 0], Leader, 2)
  const P0_DEPOSED := Peer(0, 3, -1, 0, [DUMMY, O.E1, OTHER_E2], 0, 0, [3, 2, 2], [2, 0, 0], Follower, 0)
  const P0_AGAIN := Peer(0, 4, 0, 0, [DUMMY, O.E1, OTHER_E2], 0, 0, [3, 3, 3], [2, 0, 0], Leader, 2)

  const STARTED := [P0_STARTED, O.P1_COMPACTED, O.Idle(2, 2, 0, [DUMMY, O.E1], 1)]
  const DEPOSED := [P0_DEPOSED, O.P1_COMPACTED, O.P2_TERM_3]
  const AGAIN := [P0_AGAIN, O.P1_COMPACTED, O.Idle(2, 4, 0, [DUMMY, O.E1], 1)]

  lemma Worlds()
    ensures Formed(STARTED) && Formed(DEPOSED) && Formed(AGAIN)
  {
  }

  lemma StartValue()
    ensures Propose(O.P0_TERM_2, O.OTHER) == P0_STARTED
  {
    assert [DUMMY, O.E1] + [OTHER_E2] == [DUMMY, O.E1, OTHER_E2];
    assert [2, 2, 2][0 := 3] == [3, 2, 2] && [1, 0, 0][0 := 2] == [2, 0, 0];
  }

  lemma CampaignValue()
    ensures Formed(STARTED) && AfterCampaign(STARTED, 2, 0) == DEPOSED && StartElection(STARTED[2]).term == 3
  {
  }

  lemma ElectionValue()
    ensures Formed(DEPOSED) && AfterElection(DEPOSED, 0, 2) == AGAIN && Formed(AfterCampaign(DEPOSED, 0, 2))
    ensures StartElection(DEPOSED[0]).term == 4
    ensures HandleVote(DEPOSED[2], VoteRequest(StartElection(DEPOSED[0]))).1 == VoteReply(4, true)
  {
    hide BecomeLeader;
    NewLeader(StartElection(DEPOSED[0]).(voteCount := 2));
    assert [0, 0, 0][0 := 2] == [2, 0, 0];
  }

  const AFTER_TERM_1 := Elected(0, 2, 2) + [ClientStart(0, O.OTHER)] + Campaigned(2, 0, 3) + Elected(0, 2, 4)

  lemma Rest(s: System)
    requires s.peers == O.WORLD_5
    ensures Leads(s, AFTER_TERM_1, AGAIN)
  {
    hide AfterElection, AfterCampaign, HandleVote, RunFrom, End, Leads, Formed, Elected, Campaigned, StartElection,
      VoteRequest, Propose;
    O.Term2Election();
    Worlds();
    StartValue();
    CampaignValue();
    ElectionValue();
    O.NoSteps(s);
    var steps := [];
    AndElect(s, steps, O.WORLD_5, 0, 2, 1, 2, O.WORLD_6);
    steps := steps + Elected(0, 2, 2);
    AndStart(s, steps, O.WORLD_6, 0, O.OTHER, STARTED);
    steps := steps + [ClientStart(0, O.OTHER)];
    AndCampaign(s, steps, STARTED, 2, 0, 1, 3, DEPOSED);
    steps := steps + Campaigned(2, 0, 3);
    AndElect(s, steps, DEPOSED, 0, 2, 1, 4, AGAIN);
    steps := steps + Elected(0, 2, 4);
    assert steps == AFTER_TERM_1;
  }

  const STUCK := O.TERM_1 + AFTER_TERM_1

  lemma StuckRuns()
    ensures IsRun(3, STUCK) && After(3, STUCK).peers == AGAIN
  {
    hide RunFrom, End, Formed, IsRun, After;
    var s := Init(3);
    O.StartWorld();
    O.Term1(s);
    Rest(Then(s, O.TERM_1, O.WORLD_5));
    LeadsOn(s, O.TERM_1, O.WORLD_5, AFTER_TERM_1, AGAIN);
    RunOfCluster(3, STUCK);
  }

  /** Only probes and compaction are under guard. */
  lemma {:induction false} StaysGuarded(n: nat, steps: seq<Step>, k: nat)
    requires k <= |steps| && IsRun(n, steps) && IsRun(n, steps[..k]) && GuardedRun(n, steps[..k])
    requires forall j :: k <= j < |steps| ==> !steps[j].Check? && !steps[j].CompactLog?
    ensures GuardedRun(n, steps)
    decreases |steps|
  {
    hide Enabled, Do, Shaped;
    if k == |steps| {
      assert steps[..k] == steps;
    } else {
      var before := steps[..|steps| - 1];
      assert before[..k] == steps[..k];
      StaysGuarded(n, before, k);
    }
  }

  /** The one compaction is of what has been applied. */
  lemma Term1Guarded()
    ensures IsRun(3, O.TERM_1) && GuardedRun(3, O.TERM_1)
  {
    hide RunFrom, End, Leads, IsRun, After, GuardedRun, Formed;
    var s, last := Init(3), CompactLog(1, 1);
    O.StartWorld();
    O.Uncompacted(s);
    var w := Then(s, O.UNCOMPACTED, O.WORLD_4[1 := O.P1_LONGER]);
    LeadsRuns(s, O.UNCOMPACTED, w.peers);
    RunOfCluster(3, O.UNCOMPACTED);
    PlainAfter(3, O.UNCOMPACTED);
    O.Term1Compaction();
    Allowed(w, last);
    OneMore(3, O.UNCOMPACTED, last);
  }

  lemma LeadsRuns(s: System, steps: seq<Step>, peers: seq<Peer>)
    requires Leads(s, steps, peers)
    ensures RunFrom(s, steps)
  {
  }

  lemma Allowed(w: System, step: Step)
    requires w.peers == O.WORLD_4[1 := O.P1_LONGER] && step == CompactLog(1, 1)
    ensures Shaped(w) && Enabled(w, step) && Guarded(w, step)
  {
  }

  lemma StuckGuarded()
    requires IsRun(3, STUCK)
    ensures GuardedRun(3, STUCK)
  {
    hide IsRun, GuardedRun;
    Term1Guarded();
    assert STUCK[..|O.TERM_1|] == O.TERM_1;
    assert forall j :: 0 <= j < |AFTER_TERM_1| ==> !AFTER_TERM_1[j].Check? && !AFTER_TERM_1[j].CompactLog?;
    StaysGuarded(3, STUCK, |O.TERM_1|);
  }

  /** What the whole logs behind the two must be. */
  lemma WholeLogs(pf: seq<Entry>, ff: seq<Entry>)
    requires Represents(P0_AGAIN, pf) && Represents(O.P1_COMPACTED, ff)
    ensures |pf| == 3 && |ff| == 3 && pf[1].term == 1 == ff[1].term && pf[2].term == 2 && ff[2].term == 1
  {
    var a, b := Compacted(pf, 0), Compacted(ff, 1);
    assert a[1] == pf[1] && a[2] == pf[2] && b[0].term == ff[1].term && b[1] == ff[2];
  }

  /** In this guarded run the follower is stuck: however many rounds the leader makes, it does not catch up. */
  lemma FollowerStuck()
    ensures IsRun(3, STUCK) && GuardedRun(3, STUCK)
    ensures Stuck(DuoIn(3, STUCK, 0, 1), LogIn(3, STUCK, 0), LogIn(3, STUCK, 1))
    ensures forall k: nat :: !CaughtUpAfter(DuoIn(3, STUCK, 0, 1), 1, k)
  {
    hide IsRun, GuardedRun, After, Represents, Owned, WholeLog, CaughtUpAfter, Round, CoreInv;
    StuckRuns();
    StuckGuarded();
    var c, d, pf, ff := CoreAfter(3, STUCK), DuoIn(3, STUCK, 0, 1), LogIn(3, STUCK, 0), LogIn(3, STUCK, 1);
    assert STUCK[..|STUCK|] == STUCK;
    assert d == Duo(P0_AGAIN, O.P1_COMPACTED);
    WholeLogs(pf, ff);
    assert DiffersAt(pf, ff, 1, 2);
    InCore(pf, ff);
    LogMatching(c.termLog, ff, pf, 1);
    forall k: nat ensures !CaughtUpAfter(d, 1, k) {
      NeverCatchesUp(c.termLog, d, pf, 1, ff, 2, k);
    }
  }

  lemma InCore(pf: seq<Entry>, ff: seq<Entry>)
    requires IsRun(3, STUCK) && After(3, STUCK).peers == AGAIN && pf == LogIn(3, STUCK, 0) && ff == LogIn(3, STUCK, 1)
    ensures var tl := CoreAfter(3, STUCK).termLog; Owned(tl, pf) && Owned(tl, ff) && 4 in tl && tl[4] == pf
  {
    hide IsRun, After, Owned, CoreInv;
    var c := CoreAfter(3, STUCK);
    assert STUCK[..|STUCK|] == STUCK;
    CoreAfterInv(3, STUCK);
    OwnedNode(c, 0);
    OwnedNode(c, 1);
    PeerInCore(0);
    LeaderBasics(c, 0);
  }

  lemma PeerInCore(i: nat)
    requires IsRun(3, STUCK) && After(3, STUCK).peers == AGAIN && i < 3
    ensures var c := CoreAfter(3, STUCK);
            i < |c.nodes| && c.nodes[i].role == AGAIN[i].role && c.nodes[i].term == AGAIN[i].term
  {
    hide IsRun, CoreInv;
    assert RaftInvariant.PeerOk(CoreAfter(3, STUCK), i, After(3, STUCK).peers[i]);
    RoleOfPeer(CoreAfter(3, STUCK), i, AGAIN[i]);
  }
}
