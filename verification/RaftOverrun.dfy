/**
 A run in which compaction breaks the cluster. A late reply of an older term
 sets a next index back to 1, the follower's snapshot answers the probe with
 the end of its own log, and the leader then probes beyond its own. The
 follower accepts, and the leader takes that for an acknowledgement of an
 entry it has yet to receive.
 */
module RaftOverrun {
  import opened RaftTypes
  import opened RaftPeer
  import opened RaftSystem
  import opened RaftRuns

  const C1 := Client(Op(Put, "k", "first", 1, 0))
  const C2 := Client(Op(Put, "k", "second", 1, 1))
  const C3 := Client(Op(Put, "k", "third", 1, 2))
  const OTHER := Client(Op(Put, "k", "other", 2, 0))

  const E1 := Entry(1, 1, C1)
  const E2 := Entry(2, 1, C2)
  const E3 := Entry(3, 5, C3)
  const OTHER_E2 := Entry(2, 4, OTHER)
  const SNAPSHOT := Entry(1, 1, NoCommand)

  function Idle(me: nat, term: nat, votedFor: int, logs: seq<Entry>, commit: nat): Peer {
    Peer(me, term, votedFor, 0, logs, commit, 0, [1, 1, 1], [0, 0, 0], Follower, 0)
  }

  // ---------------------------------------------------------------- term 1: server 1 commits one entry and compacts it

  const P1_ELECTED := Peer(1, 1, 1, 0, [DUMMY], 0, 0, [1, 1, 1], [0, 0, 0], Leader, 2)
  const P1_STARTED := Peer(1, 1, 1, 0, [DUMMY, E1], 0, 0, [1, 2, 1], [0, 1, 0], Leader, 2)
  const P1_COMMITTED := Peer(1, 1, 1, 0, [DUMMY, E1], 1, 0, [2, 2, 1], [1, 1, 0], Leader, 2)
  const P1_APPLIED := Peer(1, 1, 1, 0, [DUMMY, E1], 1, 1, [2, 2, 1], [1, 1, 0], Leader, 2)
  const P1_LONGER := Peer(1, 1, 1, 0, [DUMMY, E1, E2], 1, 1, [2, 3, 1], [1, 2, 0], Leader, 2)
  const P1_COMPACTED := Peer(1, 1, 1, 1, [SNAPSHOT, E2], 1, 1, [2, 3, 1], [1, 2, 0], Leader, 2)

  const FIRST := AppendArgs(1, 1, 0, 0, [E1], 0)
  const SECOND := AppendArgs(1, 1, 0, 0, [E1], 1)

  const WORLD_0 := [Idle(0, 0, -1, [DUMMY], 0), Idle(1, 0, -1, [DUMMY], 0), Idle(2, 0, -1, [DUMMY], 0)]
  const WORLD_1 := [Idle(0, 0, -1, [DUMMY], 0), P1_ELECTED, Idle(2, 1, 1, [DUMMY], 0)]
  const WORLD_2 := [Idle(0, 0, -1, [DUMMY], 0), P1_STARTED, Idle(2, 1, 1, [DUMMY], 0)]
  const WORLD_3 := [Idle(0, 1, -1, [DUMMY, E1], 0), P1_COMMITTED, Idle(2, 1, 1, [DUMMY], 0)]
  const WORLD_4 := [Idle(0, 1, -1, [DUMMY, E1], 0), P1_COMMITTED, Idle(2, 1, 1, [DUMMY, E1], 1)]
  const WORLD_5 := [Idle(0, 1, -1, [DUMMY, E1], 0), P1_COMPACTED, Idle(2, 1, 1, [DUMMY, E1], 1)]

  lemma Term1Values()
    ensures Formed(WORLD_0) && Formed(WORLD_1) && Formed(WORLD_2) && Formed(WORLD_3) && Formed(WORLD_4)
    ensures Formed(WORLD_5)
    ensures Formed(WORLD_4[1 := P1_APPLIED]) && Formed(WORLD_4[1 := P1_LONGER])
    ensures Propose(P1_ELECTED, C1) == P1_STARTED
  {
  }

  lemma Term1Election()
    ensures Formed(WORLD_0) && AfterElection(WORLD_0, 1, 2) == WORLD_1 && Formed(AfterCampaign(WORLD_0, 1, 2))
    ensures HandleVote(WORLD_0[2], VoteRequest(StartElection(WORLD_0[1]))).1 == VoteReply(1, true)
    ensures StartElection(WORLD_0[1]).term == 1
  {
    hide BecomeLeader;
    NewLeader(StartElection(WORLD_0[1]).(voteCount := 2));
    assert [0, 0, 0][1 := 0] == [0, 0, 0];
  }

  lemma Term1Replication()
    ensures CheckConsistency(P1_STARTED, 0) == SendAppend(FIRST)
    ensures HandleAppend(WORLD_2[0], FIRST) == (WORLD_3[0], AppendReply(1, true, 0))
    ensures HandleAppendReply(P1_STARTED, 0, FIRST, AppendReply(1, true, 0)) == Some(P1_COMMITTED)
    ensures CheckConsistency(P1_COMMITTED, 2) == SendAppend(SECOND)
    ensures HandleAppend(WORLD_3[2], SECOND) == (WORLD_4[2], AppendReply(1, true, 0))
  {
    hide HandleAppendReply, Matched, Merge;
    Appending(WORLD_2[0], FIRST);
    Advancing(P1_STARTED, 0, FIRST, 1);
    MergeAtEnd(WORLD_3[2].logs, SECOND.entries);
    assert [DUMMY] + [E1] == [DUMMY, E1] && [0, 1, 0][0 := 1] == [1, 1, 0] && [1, 2, 1][0 := 2] == [2, 2, 1];
  }

  lemma Term1Compaction()
    ensures Apply(P1_COMMITTED) == Some((P1_APPLIED, [ApplyMsg(1, C1)]))
    ensures Propose(P1_APPLIED, C2) == P1_LONGER
    ensures Compact(P1_LONGER, 1) == P1_COMPACTED
  {
    assert Apply(P1_COMMITTED).value.1 == [ApplyMsg(1, C1)];
  }

  const UNCOMPACTED := Elected(1, 2, 1) + [ClientStart(1, C1)] + Exchanged(0, FIRST, AppendReply(1, true, 0))
                     + Probed(2, SECOND) + [ApplyLog(1)] + [ClientStart(1, C2)]

  const TERM_1 := UNCOMPACTED + [CompactLog(1, 1)]

  lemma Uncompacted(s: System)
    requires s.peers == WORLD_0
    ensures Leads(s, UNCOMPACTED, WORLD_4[1 := P1_LONGER])
  {
    hide AfterElection, AfterCampaign, HandleVote, HandleAppend, HandleAppendReply, CheckConsistency, Propose, Compact,
      Apply, RunFrom, End, Leads, Formed, Elected, Exchanged, Probed, StartElection, VoteRequest, Handed;
    Term1Values();
    Term1Election();
    Term1Replication();
    Term1Compaction();
    NoSteps(s);
    var steps := [];
    AndElect(s, steps, WORLD_0, 1, 2, 0, 1, WORLD_1);
    steps := steps + Elected(1, 2, 1);
    AndStart(s, steps, WORLD_1, 1, C1, WORLD_2);
    steps := steps + [ClientStart(1, C1)];
    AndExchange(s, steps, WORLD_2, 0, FIRST, AppendReply(1, true, 0), WORLD_3);
    steps := steps + Exchanged(0, FIRST, AppendReply(1, true, 0));
    AndProbe(s, steps, WORLD_3, 2, SECOND, AppendReply(1, true, 0), WORLD_4);
    steps := steps + Probed(2, SECOND);
    AndApply(s, steps, WORLD_4, 1, [ApplyMsg(1, C1)], WORLD_4[1 := P1_APPLIED]);
    steps := steps + [ApplyLog(1)];
    AndStart(s, steps, WORLD_4[1 := P1_APPLIED], 1, C2, WORLD_4[1 := P1_LONGER]);
    steps := steps + [ClientStart(1, C2)];
    assert steps == UNCOMPACTED;
  }

  lemma Term1(s: System)
    requires s.peers == WORLD_0
    ensures Leads(s, TERM_1, WORLD_5)
  {
    hide Compact, RunFrom, End, Leads, Formed;
    Uncompacted(s);
    Term1Values();
    Term1Compaction();
    AndCompact(s, UNCOMPACTED, WORLD_4[1 := P1_LONGER], 1, 1, WORLD_5);
  }

  lemma NoSteps(s: System)
    requires Formed(s.peers)
    ensures Leads(s, [], s.peers)
  {
  }

  // ---------------------------------------------------------------- terms 2 and 3: server 0 leads and is deposed

  const P0_TERM_2 := Peer(0, 2, 0, 0, [DUMMY, E1], 0, 0, [2, 2, 2], [1, 0, 0], Leader, 2)
  const P0_TERM_3 := Peer(0, 3, 2, 0, [DUMMY, E1], 0, 0, [2, 2, 2], [1, 0, 0], Follower, 0)
  const P2_TERM_3 := Peer(2, 3, 2, 0, [DUMMY, E1], 1, 0, [1, 1, 1], [0, 0, 0], Candidate, 1)

  /** The probe of term 2, which stays in the network. */
  const LATE := AppendArgs(2, 0, 1, 1, [], 0)

  const WORLD_6 := [P0_TERM_2, P1_COMPACTED, Idle(2, 2, 0, [DUMMY, E1], 1)]
  const WORLD_7 := [P0_TERM_3, P1_COMPACTED, P2_TERM_3]

  lemma Term2Election()
    ensures Formed(WORLD_5) && Formed(WORLD_6) && Formed(AfterCampaign(WORLD_5, 0, 2))
    ensures AfterElection(WORLD_5, 0, 2) == WORLD_6 && StartElection(WORLD_5[0]).term == 2
    ensures HandleVote(WORLD_5[2], VoteRequest(StartElection(WORLD_5[0]))).1 == VoteReply(2, true)
    ensures CheckConsistency(P0_TERM_2, 1) == SendAppend(LATE)
  {
    hide BecomeLeader;
    NewLeader(StartElection(WORLD_5[0]).(voteCount := 2));
    assert [0, 0, 0][0 := 1] == [1, 0, 0];
  }

  const TERM_2 := Elected(0, 2, 2) + [Check(0, 1)]

  lemma Term2(s: System)
    requires s.peers == WORLD_5
    ensures Leads(s, TERM_2, WORLD_6) && AppendMsg(1, LATE) in End(s, TERM_2).net
  {
    hide AfterElection, AfterCampaign, HandleVote, CheckConsistency, RunFrom, End, Leads, Formed, Elected,
      StartElection, VoteRequest;
    Term2Election();
    NoSteps(s);
    AndElect(s, [], WORLD_5, 0, 2, 1, 2, WORLD_6);
    AndSend(s, [] + Elected(0, 2, 2), WORLD_6, 1, LATE);
    assert [] + Elected(0, 2, 2) + [Check(0, 1)] == TERM_2;
  }

  // ---------------------------------------------------------------- term 4: server 0 leads again

  const P0_TERM_4 := Peer(0, 4, 0, 0, [DUMMY, E1], 0, 0, [2, 2, 2], [1, 0, 0], Leader, 2)
  const P0_SET_BACK := P0_TERM_4.(nextIndex := [2, 1, 2])
  const P0_BEYOND := P0_TERM_4.(nextIndex := [2, 3, 2])
  const P0_STARTED := Peer(0, 4, 0, 0, [DUMMY, E1, OTHER_E2], 0, 0, [3, 3, 2], [2, 0, 0], Leader, 2)
  const P0_COMMITTED := Peer(0, 4, 0, 0, [DUMMY, E1, OTHER_E2], 2, 0, [3, 3, 2], [2, 2, 0], Leader, 2)
  const P0_APPLIED := Peer(0, 4, 0, 0, [DUMMY, E1, OTHER_E2], 2, 2, [3, 3, 2], [2, 2, 0], Leader, 2)
  const P1_TERM_4 := Peer(1, 4, -1, 1, [SNAPSHOT, E2], 1, 1, [2, 3, 1], [1, 2, 0], Follower, 0)
  const P2_TERM_4 := Idle(2, 4, 0, [DUMMY, E1], 1)

  /** From the start of the log, and then beyond its end. */
  const BACK := AppendArgs(4, 0, 0, 0, [E1], 0)
  const BEYOND := AppendArgs(4, 0, 2, 1, [], 0)

  const REFUSED_LATE := AppendReply(4, false, 0)
  const REFUSED_BACK := AppendReply(4, false, 3)
  const ACCEPTED := AppendReply(4, true, 0)

  const WORLD_8 := [P0_TERM_4, P1_COMPACTED, P2_TERM_4]
  const WORLD_9 := [P0_TERM_4, P1_TERM_4, P2_TERM_4]
  const WORLD_10 := [P0_SET_BACK, P1_TERM_4, P2_TERM_4]
  const WORLD_11 := [P0_BEYOND, P1_TERM_4, P2_TERM_4]
  const WORLD_12 := [P0_STARTED, P1_TERM_4, P2_TERM_4]
  const WORLD_13 := [P0_COMMITTED, P1_TERM_4, P2_TERM_4]
  const WORLD_14 := [P0_APPLIED, P1_TERM_4, P2_TERM_4]

  lemma Term3Values()
    ensures Formed(WORLD_6) && Formed(WORLD_7) && AfterCampaign(WORLD_6, 2, 0) == WORLD_7
    ensures StartElection(WORLD_6[2]).term == 3
  {
  }

  lemma Term4Worlds()
    ensures Formed(WORLD_8) && Formed(WORLD_9) && Formed(WORLD_10) && Formed(WORLD_11) && Formed(WORLD_12)
    ensures Formed(WORLD_13) && Formed(WORLD_14)
  {
  }

  lemma Term4Election()
    ensures Formed(WORLD_7) && AfterElection(WORLD_7, 0, 2) == WORLD_8 && Formed(AfterCampaign(WORLD_7, 0, 2))
    ensures StartElection(WORLD_7[0]).term == 4
    ensures HandleVote(WORLD_7[2], VoteRequest(StartElection(WORLD_7[0]))).1 == VoteReply(4, true)
    ensures VoteRequest(StartElection(WORLD_7[0])) == VoteArgs(4, 0, 1, 1)
    ensures HandleVote(P1_COMPACTED, VoteArgs(4, 0, 1, 1)).0 == P1_TERM_4
  {
    hide BecomeLeader;
    NewLeader(StartElection(WORLD_7[0]).(voteCount := 2));
    assert [0, 0, 0][0 := 1] == [1, 0, 0];
  }

  lemma Term4Probes()
    ensures HandleAppend(P1_TERM_4, LATE) == (P1_TERM_4, REFUSED_LATE)
    ensures HandleAppendReply(P0_TERM_4, 1, LATE, REFUSED_LATE) == Some(P0_SET_BACK)
    ensures CheckConsistency(P0_SET_BACK, 1) == SendAppend(BACK)
    ensures HandleAppend(P1_TERM_4, BACK) == (P1_TERM_4, REFUSED_BACK)
    ensures HandleAppendReply(P0_SET_BACK, 1, BACK, REFUSED_BACK) == Some(P0_BEYOND)
  {
    assert [2, 2, 2][1 := 1] == [2, 1, 2] && [2, 1, 2][1 := 3] == [2, 3, 2];
    assert [DUMMY, E1][1..] == [E1];
  }

  lemma Term4Acceptance()
    ensures CheckConsistency(P0_BEYOND, 1) == SendAppend(BEYOND)
    ensures HandleAppend(P1_TERM_4, BEYOND) == (P1_TERM_4, ACCEPTED)
    ensures HandleAppendReply(P0_BEYOND, 1, BEYOND, ACCEPTED) == None
    ensures Propose(P0_BEYOND, OTHER) == P0_STARTED
    ensures HandleAppendReply(P0_STARTED, 1, BEYOND, ACCEPTED) == Some(P0_COMMITTED)
    ensures Apply(P0_COMMITTED) == Some((P0_APPLIED, [ApplyMsg(1, C1), ApplyMsg(2, OTHER)]))
  {
    hide Merge, Matched;
    MergeNothing(P1_TERM_4.logs, 2);
    Advancing(P0_STARTED, 1, BEYOND, 0);
    assert [DUMMY, E1][2..] == [] && [DUMMY, E1] + [OTHER_E2] == [DUMMY, E1, OTHER_E2];
    assert [2, 3, 2][0 := 3] == [3, 3, 2] && [1, 0, 0][0 := 2] == [2, 0, 0];
    assert [2, 0, 0][1 := 2] == [2, 2, 0] && [3, 3, 2][1 := 3] == [3, 3, 2];
    assert Apply(P0_COMMITTED).value.1 == [ApplyMsg(1, C1), ApplyMsg(2, OTHER)];
  }

  const TERM_4_PROBES := Campaigned(2, 0, 3) + Elected(0, 2, 4) + [DeliverVote(VoteCall(0, 4, 1))]
                       + [DeliverAppend(AppendMsg(1, LATE))] + [TakeAppendReply(AppendReplyMsg(1, LATE, REFUSED_LATE))]
                       + Exchanged(1, BACK, REFUSED_BACK) + Probed(1, BEYOND)

  lemma Term4ToProbe(s: System)
    requires s.peers == WORLD_6 && AppendMsg(1, LATE) in s.net
    ensures Leads(s, TERM_4_PROBES, WORLD_11) && AppendReplyMsg(1, BEYOND, ACCEPTED) in End(s, TERM_4_PROBES).net
  {
    hide AfterElection, AfterCampaign, HandleVote, HandleAppend, HandleAppendReply, CheckConsistency, RunFrom, End,
      Formed, Elected, Campaigned, Exchanged, Probed, StartElection, VoteRequest;
    Term3Values();
    Term4Worlds();
    Term4Election();
    Term4Probes();
    Term4Acceptance();
    NoSteps(s);
    var steps := [];
    AndCampaign(s, steps, WORLD_6, 2, 0, 1, 3, WORLD_7);
    steps := steps + Campaigned(2, 0, 3);
    AndElect(s, steps, WORLD_7, 0, 2, 1, 4, WORLD_8);
    steps := steps + Elected(0, 2, 4);
    AndAsk(s, steps, WORLD_8, VoteCall(0, 4, 1), VoteArgs(4, 0, 1, 1), WORLD_9);
    steps := steps + [DeliverVote(VoteCall(0, 4, 1))];
    AndDeliver(s, steps, WORLD_9, 1, LATE, REFUSED_LATE, WORLD_9);
    steps := steps + [DeliverAppend(AppendMsg(1, LATE))];
    AndTake(s, steps, WORLD_9, 1, LATE, REFUSED_LATE, WORLD_10);
    steps := steps + [TakeAppendReply(AppendReplyMsg(1, LATE, REFUSED_LATE))];
    AndExchange(s, steps, WORLD_10, 1, BACK, REFUSED_BACK, WORLD_11);
    steps := steps + Exchanged(1, BACK, REFUSED_BACK);
    AndProbe(s, steps, WORLD_11, 1, BEYOND, ACCEPTED, WORLD_11);
    steps := steps + Probed(1, BEYOND);
    assert steps == TERM_4_PROBES;
  }

  const TERM_4_COMMIT :=
      [ClientStart(0, OTHER)] + [TakeAppendReply(AppendReplyMsg(1, BEYOND, ACCEPTED))] + [ApplyLog(0)]

  lemma Term4Commits(s: System)
    requires s.peers == WORLD_11 && AppendReplyMsg(1, BEYOND, ACCEPTED) in s.net
    ensures Leads(s, TERM_4_COMMIT, WORLD_14) && Applied(0, 2, OTHER) in End(s, TERM_4_COMMIT).applied
  {
    hide HandleAppendReply, RunFrom, End, Formed, Propose, Apply;
    Term4Worlds();
    Term4Acceptance();
    NoSteps(s);
    var steps := [];
    AndStart(s, steps, WORLD_11, 0, OTHER, WORLD_12);
    steps := steps + [ClientStart(0, OTHER)];
    AndTake(s, steps, WORLD_12, 1, BEYOND, ACCEPTED, WORLD_13);
    steps := steps + [TakeAppendReply(AppendReplyMsg(1, BEYOND, ACCEPTED))];
    var msgs := [ApplyMsg(1, C1), ApplyMsg(2, OTHER)];
    AndApply(s, steps, WORLD_13, 0, msgs, WORLD_14);
    steps := steps + [ApplyLog(0)];
    assert steps == TERM_4_COMMIT;
    assert msgs[1] == ApplyMsg(2, OTHER);
    assert Applied(0, 2, OTHER) in Handed(0, msgs);
  }

  // ---------------------------------------------------------------- term 5: server 1 leads with its own second entry

  const P1_TERM_5 := Peer(1, 5, 1, 1, [SNAPSHOT, E2], 1, 1, [3, 3, 3], [0, 2, 0], Leader, 2)
  const P1_THIRD := Peer(1, 5, 1, 1, [SNAPSHOT, E2, E3], 1, 1, [3, 4, 3], [0, 3, 0], Leader, 2)
  const P1_LOWERED := P1_THIRD.(nextIndex := [3, 4, 2])
  const P1_DECIDED := Peer(1, 5, 1, 1, [SNAPSHOT, E2, E3], 3, 1, [3, 4, 4], [0, 3, 3], Leader, 2)
  const P1_FINAL := P1_DECIDED.(lastApplied := 3)

  const AHEAD := AppendArgs(5, 1, 2, 1, [E3], 1)
  const CATCH_UP := AppendArgs(5, 1, 1, 1, [E2, E3], 1)
  const REFUSED_AHEAD := AppendReply(5, false, 2)

  const WORLD_15 := [P0_APPLIED, P1_TERM_5, Idle(2, 5, 1, [DUMMY, E1], 1)]
  const WORLD_16 := [P0_APPLIED, P1_THIRD, Idle(2, 5, 1, [DUMMY, E1], 1)]
  const WORLD_17 := [P0_APPLIED, P1_LOWERED, Idle(2, 5, 1, [DUMMY, E1], 1)]
  const WORLD_18 := [P0_APPLIED, P1_DECIDED, Idle(2, 5, 1, [DUMMY, E1, E2, E3], 1)]
  const WORLD_19 := [P0_APPLIED, P1_FINAL, Idle(2, 5, 1, [DUMMY, E1, E2, E3], 1)]

  lemma Term5Worlds()
    ensures Formed(WORLD_14) && Formed(WORLD_15) && Formed(WORLD_16) && Formed(WORLD_17) && Formed(WORLD_18)
    ensures Formed(WORLD_19)
  {
  }

  lemma Term5Election()
    ensures Formed(WORLD_14) && AfterElection(WORLD_14, 1, 2) == WORLD_15 && Formed(AfterCampaign(WORLD_14, 1, 2))
    ensures StartElection(WORLD_14[1]).term == 5 && Propose(P1_TERM_5, C3) == P1_THIRD
    ensures HandleVote(WORLD_14[2], VoteRequest(StartElection(WORLD_14[1]))).1 == VoteReply(5, true)
  {
    hide BecomeLeader;
    NewLeader(StartElection(WORLD_14[1]).(voteCount := 2));
    assert [0, 0, 0][1 := 2] == [0, 2, 0] && [SNAPSHOT, E2] + [E3] == [SNAPSHOT, E2, E3];
    assert [3, 3, 3][1 := 4] == [3, 4, 3] && [0, 2, 0][1 := 3] == [0, 3, 0];
  }

  lemma Term5Replication()
    ensures CheckConsistency(P1_THIRD, 2) == SendAppend(AHEAD)
    ensures HandleAppend(WORLD_16[2], AHEAD) == (WORLD_17[2], REFUSED_AHEAD)
    ensures HandleAppendReply(P1_THIRD, 2, AHEAD, REFUSED_AHEAD) == Some(P1_LOWERED)
    ensures CheckConsistency(P1_LOWERED, 2) == SendAppend(CATCH_UP)
    ensures HandleAppend(WORLD_17[2], CATCH_UP) == (WORLD_18[2], AppendReply(5, true, 0))
    ensures HandleAppendReply(P1_LOWERED, 2, CATCH_UP, AppendReply(5, true, 0)) == Some(P1_DECIDED)
    ensures Apply(P1_DECIDED) == Some((P1_FINAL, [ApplyMsg(2, C2), ApplyMsg(3, C3)]))
  {
    hide Merge, Matched;
    Appending(WORLD_17[2], CATCH_UP);
    Advancing(P1_LOWERED, 2, CATCH_UP, 1);
    assert [SNAPSHOT, E2, E3][2..] == [E3] && [SNAPSHOT, E2, E3][1..] == [E2, E3];
    assert [DUMMY, E1] + [E2, E3] == [DUMMY, E1, E2, E3] && [3, 4, 3][2 := 2] == [3, 4, 2];
    assert [0, 3, 0][2 := 3] == [0, 3, 3] && [3, 4, 2][2 := 4] == [3, 4, 4];
    assert Apply(P1_DECIDED).value.1 == [ApplyMsg(2, C2), ApplyMsg(3, C3)];
  }

  const TERM_5 := Elected(1, 2, 5) + [ClientStart(1, C3)] + Exchanged(2, AHEAD, REFUSED_AHEAD)
                + Exchanged(2, CATCH_UP, AppendReply(5, true, 0)) + [ApplyLog(1)]

  lemma Term5(s: System)
    requires s.peers == WORLD_14
    ensures Leads(s, TERM_5, WORLD_19) && Applied(1, 2, C2) in End(s, TERM_5).applied
  {
    hide AfterElection, AfterCampaign, HandleVote, HandleAppend, HandleAppendReply, CheckConsistency, Propose, Apply,
      RunFrom, End, Formed, Elected, Exchanged, StartElection, VoteRequest;
    Term5Worlds();
    Term5Election();
    Term5Replication();
    NoSteps(s);
    var steps := [];
    AndElect(s, steps, WORLD_14, 1, 2, 0, 5, WORLD_15);
    steps := steps + Elected(1, 2, 5);
    AndStart(s, steps, WORLD_15, 1, C3, WORLD_16);
    steps := steps + [ClientStart(1, C3)];
    AndExchange(s, steps, WORLD_16, 2, AHEAD, REFUSED_AHEAD, WORLD_17);
    steps := steps + Exchanged(2, AHEAD, REFUSED_AHEAD);
    AndExchange(s, steps, WORLD_17, 2, CATCH_UP, AppendReply(5, true, 0), WORLD_18);
    steps := steps + Exchanged(2, CATCH_UP, AppendReply(5, true, 0));
    var msgs := [ApplyMsg(2, C2), ApplyMsg(3, C3)];
    AndApply(s, steps, WORLD_18, 1, msgs, WORLD_19);
    steps := steps + [ApplyLog(1)];
    assert steps == TERM_5;
    assert msgs[0] == ApplyMsg(2, C2);
    assert Applied(1, 2, C2) in Handed(1, msgs);
  }

  // ---------------------------------------------------------------- the run

  /** Up to the acceptance of the probe that lies beyond the leader's log. */
  const OVERRUN := TERM_1 + TERM_2 + TERM_4_PROBES

  /** On to two different commands at index 2. */
  const DIVERGED := OVERRUN + TERM_4_COMMIT + TERM_5

  lemma ToOverrun()
    ensures Leads(Init(3), OVERRUN, WORLD_11) && AppendReplyMsg(1, BEYOND, ACCEPTED) in End(Init(3), OVERRUN).net
  {
    hide RunFrom, End, Formed;
    var s := Init(3);
    StartWorld();
    Term1(s);
    Term2(Then(s, TERM_1, WORLD_5));
    LeadsOn(s, TERM_1, WORLD_5, TERM_2, WORLD_6);
    Term4ToProbe(Then(s, TERM_1 + TERM_2, WORLD_6));
    LeadsOn(s, TERM_1 + TERM_2, WORLD_6, TERM_4_PROBES, WORLD_11);
  }

  lemma StartWorld()
    ensures Init(3).peers == WORLD_0
  {
    assert [1, 1, 1] == seq(3, _ => 1) && [0, 0, 0] == seq(3, _ => 0);
  }

  /** With compaction a reply can make a leader read outside its log. */
  lemma CompactionKillsLeader()
    ensures IsRun(3, OVERRUN)
    ensures var s := After(3, OVERRUN);
            && |s.peers| == 3 && WellFormed(s.peers[0], 3) && AppendReplyMsg(1, BEYOND, ACCEPTED) in s.net
            && HandleAppendReply(s.peers[0], 1, BEYOND, ACCEPTED) == None
  {
    hide RunFrom, End, IsRun, After, HandleAppendReply;
    ToOverrun();
    Term4Acceptance();
    Term4Worlds();
    RunOfCluster(3, OVERRUN);
  }

  /** With compaction two servers can apply different commands at one index. */
  lemma CompactionDiverges()
    ensures IsRun(3, DIVERGED)
    ensures Applied(0, 2, OTHER) in After(3, DIVERGED).applied && Applied(1, 2, C2) in After(3, DIVERGED).applied
    ensures OTHER != C2
  {
    hide RunFrom, End, IsRun, After, Formed;
    var s := Init(3);
    ToOverrun();
    Term4Commits(Then(s, OVERRUN, WORLD_11));
    LeadsOn(s, OVERRUN, WORLD_11, TERM_4_COMMIT, WORLD_14);
    Term5(Then(s, OVERRUN + TERM_4_COMMIT, WORLD_14));
    LeadsOn(s, OVERRUN + TERM_4_COMMIT, WORLD_14, TERM_5, WORLD_19);
    RunOfCluster(3, DIVERGED);
  }
}
