/** In every guarded run, a leader can bring any follower that is not stuck up to its own log. */
module RaftCatchUp {
  import opened RaftTypes
  import opened RaftCore
  import opened RaftPeer
  import opened RaftCompaction
  import opened RaftSystem
  import opened RaftInvariant
  import opened RaftSafety
  import opened RaftTheorems
  import opened RaftCommit
  import opened RaftRuns
  import opened RaftBackup

  // ---------------------------------------------------------------- going on from a run

  lemma RunShaped(n: nat, steps: seq<Step>)
    requires IsRun(n, steps)
    ensures Shaped(After(n, steps)) && |After(n, steps).peers| == n && Formed(After(n, steps).peers)
  {
    RunSize(n, steps);
    var s, c := After(n, steps), CoreAfter(n, steps);
    hide IsRun, CoreInv, Represents;
    forall i | 0 <= i < |s.peers| ensures WellFormed(s.peers[i], |s.peers|) && s.peers[i].me == i {
      assert PeerOk(c, i, s.peers[i]);
    }
  }

  /** Every step of `steps`, taken from `s`, meets the guard. */
  ghost predicate GuardedFrom(s: System, steps: seq<Step>)
    requires RunFrom(s, steps)
    decreases |steps|
  {
    steps == [] || (Guarded(s, steps[0]) && GuardedFrom(Do(s, steps[0]), steps[1..]))
  }

  lemma {:induction false} GuardedJoin(s: System, a: seq<Step>, b: seq<Step>)
    requires RunFrom(s, a) && RunFrom(End(s, a), b) && GuardedFrom(s, a) && GuardedFrom(End(s, a), b)
    ensures RunFrom(s, a + b) && GuardedFrom(s, a + b)
    decreases |a|
  {
    hide Shaped, Enabled, Do, Guarded;
    Join(s, a, b);
    if a == [] {
      assert a + b == b;
    } else {
      GuardedJoin(Do(s, a[0]), a[1..], b);
      assert (a + b)[0] == a[0] && (a + b)[1..] == a[1..] + b;
    }
  }

  lemma OneMore(n: nat, steps: seq<Step>, step: Step)
    requires IsRun(n, steps) && Shaped(After(n, steps)) && Enabled(After(n, steps), step)
    ensures IsRun(n, steps + [step]) && After(n, steps + [step]) == Do(After(n, steps), step)
    ensures GuardedRun(n, steps) && Guarded(After(n, steps), step) ==> GuardedRun(n, steps + [step])
  {
    hide Shaped, Enabled, Do, Guarded;
    var more := steps + [step];
    assert more[..|more| - 1] == steps;
  }

  /** A run goes on with steps that can be taken from its end. */
  lemma {:induction false} Continue(n: nat, steps: seq<Step>, more: seq<Step>)
    requires IsRun(n, steps) && RunFrom(After(n, steps), more)
    ensures IsRun(n, steps + more) && After(n, steps + more) == End(After(n, steps), more)
    ensures GuardedRun(n, steps) && GuardedFrom(After(n, steps), more) ==> GuardedRun(n, steps + more)
    decreases |more|
  {
    hide Shaped, Enabled, Do, Guarded, IsRun, GuardedRun;
    if more == [] {
      assert steps + more == steps;
    } else {
      OneMore(n, steps, more[0]);
      Continue(n, steps + [more[0]], more[1..]);
      assert steps + [more[0]] + more[1..] == steps + more;
    }
  }

  // ---------------------------------------------------------------- one round

  /** A probe or a snapshot on its way, or the answer to one. */
  predicate Exchange(step: Step) {
    step.Check? || step.DeliverAppend? || step.TakeAppendReply? || step.DeliverSnapshot? || step.TakeSnapshotReply?
  }

  predicate Exchanges(steps: seq<Step>) {
    forall k :: 0 <= k < |steps| ==> Exchange(steps[k])
  }

  lemma ExchangesJoin(a: seq<Step>, b: seq<Step>)
    requires Exchanges(a) && Exchanges(b)
    ensures Exchanges(a + b)
  {
  }

  /** The steps lead to these peers, by exchanges that meet the guard. */
  ghost predicate Trades(s: System, steps: seq<Step>, peers: seq<Peer>) {
    Leads(s, steps, peers) && Exchanges(steps) && GuardedFrom(s, steps)
  }

  lemma TradesOn(s: System, a: seq<Step>, mid: seq<Peer>, b: seq<Step>, peers: seq<Peer>)
    requires Trades(s, a, mid) && Trades(End(s, a), b, peers)
    ensures Trades(s, a + b, peers) && End(s, a + b) == End(End(s, a), b)
  {
    hide RunFrom, End, GuardedFrom, Exchanges;
    LeadsOn(s, a, mid, b, peers);
    GuardedJoin(s, a, b);
    ExchangesJoin(a, b);
  }

  lemma OneTrade(s: System, step: Step, peers: seq<Peer>)
    requires Shaped(s) && Enabled(s, step) && Do(s, step).peers == peers && Formed(peers) && Exchange(step)
    requires s.net <= Do(s, step).net && s.applied <= Do(s, step).applied && Guarded(s, step)
    ensures Trades(s, [step], peers) && End(s, [step]) == Do(s, step)
  {
    hide Enabled, Do, Guarded, Formed;
    OneLeads(s, step, peers);
    assert [step][0] == step && [step][1..] == [];
    assert RunFrom(Do(s, step), [step][1..]) && GuardedFrom(Do(s, step), [step][1..]);
    assert Exchanges([step]);
  }

  /** The two of a cluster. */
  function DuoOf(peers: seq<Peer>, l: nat, to: nat): Duo
    requires l < |peers| && to < |peers|
  {
    Duo(peers[l], peers[to])
  }

  function AfterRound(peers: seq<Peer>, l: nat, to: nat, e: Duo): seq<Peer>
    requires l < |peers| && to < |peers|
  {
    peers[to := e.follower][l := e.leader]
  }

  lemma RoundKeepsForm(d: Duo, to: nat, e: Duo, n: nat)
    requires WellFormed(d.leader, n) && WellFormed(d.follower, n) && Paired(d, to) && Round(d, to) == Some(e)
    ensures WellFormed(e.leader, n) && WellFormed(e.follower, n) && Paired(e, to)
    ensures e.leader.me == d.leader.me && e.follower.me == d.follower.me
  {
    hide RunStart, Matched, MatchLen;
  }

  lemma AppendTrade(s: System, l: nat, to: nat, args: AppendArgs, e: Duo) returns (steps: seq<Step>)
    requires Formed(s.peers) && l < |s.peers| && to < |s.peers| && l != to
    requires CheckConsistency(s.peers[l], to) == SendAppend(args) && args.leader == l
    requires HandleAppend(s.peers[to], args).0 == e.follower
    requires HandleAppendReply(s.peers[l], to, args, HandleAppend(s.peers[to], args).1) == Some(e.leader)
    requires WellFormed(e.leader, |s.peers|) && WellFormed(e.follower, |s.peers|) && e.leader.me == l
    requires e.follower.me == to
    requires s.peers[l].nextIndex[to] <= s.peers[l].Last() + 1
    ensures Trades(s, steps, AfterRound(s.peers, l, to, e)) && |steps| == 3
  {
    hide CheckConsistency, HandleAppend, HandleAppendReply, RunFrom, End, Trades, Exchanges, GuardedFrom;
    var reply := HandleAppend(s.peers[to], args).1;
    OneTrade(s, Check(l, to), s.peers);
    var t := Do(s, Check(l, to));
    var mid := s.peers[to := e.follower];
    var deliver := DeliverAppend(AppendMsg(to, args));
    OneTrade(t, deliver, mid);
    TradesOn(s, [Check(l, to)], s.peers, [deliver], mid);
    var u := Do(t, deliver);
    var take := TakeAppendReply(AppendReplyMsg(to, args, reply));
    OneTrade(u, take, AfterRound(s.peers, l, to, e));
    TradesOn(s, [Check(l, to)] + [deliver], mid, [take], AfterRound(s.peers, l, to, e));
    steps := [Check(l, to)] + [deliver] + [take];
  }

  lemma SnapshotTrade(s: System, l: nat, to: nat, args: SnapshotArgs, e: Duo) returns (steps: seq<Step>)
    requires Formed(s.peers) && l < |s.peers| && to < |s.peers| && l != to
    requires CheckConsistency(s.peers[l], to) == SendSnapshot(args) && args.leader == l
    requires HandleSnapshot(s.peers[to], args).0 == e.follower
    requires HandleSnapshotReply(s.peers[l], to, args, HandleSnapshot(s.peers[to], args).1) == e.leader
    requires WellFormed(e.leader, |s.peers|) && WellFormed(e.follower, |s.peers|) && e.leader.me == l
    requires e.follower.me == to
    ensures Trades(s, steps, AfterRound(s.peers, l, to, e)) && |steps| == 3
  {
    hide CheckConsistency, HandleSnapshot, HandleSnapshotReply, RunFrom, End, Trades, Exchanges, GuardedFrom;
    var term := HandleSnapshot(s.peers[to], args).1;
    OneTrade(s, Check(l, to), s.peers);
    var t := Do(s, Check(l, to));
    var mid := s.peers[to := e.follower];
    var deliver := DeliverSnapshot(SnapshotMsg(to, args));
    OneTrade(t, deliver, mid);
    TradesOn(s, [Check(l, to)], s.peers, [deliver], mid);
    var u := Do(t, deliver);
    var take := TakeSnapshotReply(SnapshotReplyMsg(to, args, term));
    OneTrade(u, take, AfterRound(s.peers, l, to, e));
    TradesOn(s, [Check(l, to)] + [deliver], mid, [take], AfterRound(s.peers, l, to, e));
    steps := [Check(l, to)] + [deliver] + [take];
  }

  lemma ProbeFrom(p: Peer, to: nat)
    requires |p.logs| > 0 && to < |p.nextIndex| && p.nextIndex[to] >= 1
    ensures var probe := CheckConsistency(p, to);
            && (probe.SendAppend? ==> probe.append.leader == p.me)
            && (probe.SendSnapshot? ==> probe.snapshot.leader == p.me)
            && (probe.Silent? ==> p.role != Leader)
  {
  }

  /** One round of the two is three steps of the cluster. */
  lemma RoundTrades(s: System, l: nat, to: nat, e: Duo) returns (steps: seq<Step>)
    requires Formed(s.peers) && l < |s.peers| && to < |s.peers| && l != to && s.peers[l].role == Leader
    requires var d := DuoOf(s.peers, l, to); Paired(d, to) && Within(d, to) && Round(d, to) == Some(e)
    ensures |steps| == 3
    ensures Trades(s, steps, AfterRound(s.peers, l, to, e)) && Formed(AfterRound(s.peers, l, to, e))
  {
    hide CheckConsistency, HandleAppend, HandleAppendReply, HandleSnapshot, HandleSnapshotReply, Trades;
    var d := DuoOf(s.peers, l, to);
    RoundKeepsForm(d, to, e, |s.peers|);
    ProbeFrom(d.leader, to);
    match CheckConsistency(d.leader, to)
    case SendAppend(args) => steps := AppendTrade(s, l, to, args, e);
    case SendSnapshot(args) => steps := SnapshotTrade(s, l, to, args, e);
  }

  lemma NoTrade(s: System)
    requires Formed(s.peers)
    ensures Trades(s, [], s.peers) && End(s, []) == s
  {
  }

  /** Rounds of the two, one after the other, are steps of the cluster. */
  lemma {:induction false} ReachesTrades(s: System, l: nat, to: nat, k: nat, e: Duo) returns (steps: seq<Step>)
    requires Formed(s.peers) && l < |s.peers| && to < |s.peers| && l != to
    requires Reaches(DuoOf(s.peers, l, to), to, k, e)
    ensures |steps| == 3 * k
    ensures Trades(s, steps, AfterRound(s.peers, l, to, e)) && Formed(AfterRound(s.peers, l, to, e))
    decreases k
  {
    hide Round, Trades, Formed, End;
    var d := DuoOf(s.peers, l, to);
    if k == 0 {
      NoTrade(s);
      assert AfterRound(s.peers, l, to, e) == s.peers;
      steps := [];
    } else {
      var g := Round(d, to).value;
      var first := RoundTrades(s, l, to, g);
      var mid := AfterRound(s.peers, l, to, g);
      var t := TradedTo(s, first, mid);
      var rest := ReachesTrades(t, l, to, k - 1, e);
      assert AfterRound(mid, l, to, e) == AfterRound(s.peers, l, to, e);
      TradesOn(s, first, mid, rest, AfterRound(s.peers, l, to, e));
      steps := first + rest;
    }
  }

  lemma TradedTo(s: System, steps: seq<Step>, peers: seq<Peer>) returns (t: System)
    requires Trades(s, steps, peers)
    ensures RunFrom(s, steps) && t == End(s, steps) && t.peers == peers
  {
    t := End(s, steps);
  }

  // ---------------------------------------------------------------- in every guarded run

  /** The leader `l` and the server `to` after the whole run. */
  ghost function DuoIn(n: nat, steps: seq<Step>, l: nat, to: nat): Duo
    requires IsRun(n, steps) && l < n && to < n
  {
    Duo(PeerAt(n, steps, |steps|, l), PeerAt(n, steps, |steps|, to))
  }

  ghost function LogIn(n: nat, steps: seq<Step>, i: nat): seq<Entry>
    requires IsRun(n, steps) && i < n
  {
    WholeLog(n, steps, |steps|, i)
  }

  /** A server of the leader's term or an earlier one meets the leader as `RaftBackup` asks. */
  lemma MeetingInRuns(n: nat, steps: seq<Step>, l: nat, to: nat)
    requires IsRun(n, steps) && GuardedRun(n, steps) && l < n && to < n && l != to
    requires PeerAt(n, steps, |steps|, l).role == Leader
    requires PeerAt(n, steps, |steps|, to).term <= PeerAt(n, steps, |steps|, l).term
    ensures Meeting(CoreAfter(n, steps).termLog, DuoIn(n, steps, l, to), LogIn(n, steps, l), to, LogIn(n, steps, to))
  {
    hide IsRun, GuardedRun, CoreInv, Owned, CoveredBy, PeerOk, Represents, AckedTo;
    assert steps[..|steps|] == steps;
    var c := CoreAfter(n, steps);
    CoreAfterInv(n, steps);
    PeerFacts(n, steps, |steps|, l);
    PeerFacts(n, steps, |steps|, to);
    RoleOfPeer(c, l, PeerAt(n, steps, |steps|, l));
    LeaderBasics(c, l);
    OwnedNode(c, l);
    OwnedNode(c, to);
    LeadersHoldCommitted(n, steps, |steps|, to, l);
    assert Paired(DuoIn(n, steps, l, to), to);
  }

  lemma OwnedNode(c: Core, i: nat)
    requires CoreInv(c) && i < |c.nodes|
    ensures Owned(c.termLog, c.nodes[i].log)
  {
    assert GoodNode(c, i);
  }

  lemma RoleOfPeer(c: Core, i: nat, p: Peer)
    requires PeerOk(c, i, p)
    ensures i < |c.nodes| && c.nodes[i].role == p.role && c.nodes[i].term == p.term
  {
  }

  /** After the run, or after the same run and some more, the peers are the same but for `l` and `to`. */
  ghost predicate OthersStay(n: nat, steps: seq<Step>, more: seq<Step>, l: nat, to: nat)
    requires IsRun(n, steps) && IsRun(n, steps + more)
  {
    forall j: nat :: j < n && j != l && j != to ==>
      PeerAt(n, steps + more, |steps + more|, j) == PeerAt(n, steps, |steps|, j)
  }

  /**
   In every guarded run, unless the follower is stuck, the leader brings it up to
   its own log by probes and snapshots from within its log alone: afterwards the
   follower's whole log agrees with the leader's to its end, and the leader knows.
   */
  lemma CatchUpInRuns(n: nat, steps: seq<Step>, l: nat, to: nat) returns (more: seq<Step>)
    requires IsRun(n, steps) && GuardedRun(n, steps) && l < n && to < n && l != to
    requires PeerAt(n, steps, |steps|, l).role == Leader
    requires PeerAt(n, steps, |steps|, to).term <= PeerAt(n, steps, |steps|, l).term
    requires var d := DuoIn(n, steps, l, to);
             && Paired(d, to) && GoodStart(d, LogIn(n, steps, l), to, LogIn(n, steps, to))
             && !Stuck(d, LogIn(n, steps, l), LogIn(n, steps, to))
    ensures IsRun(n, steps + more) && GuardedRun(n, steps + more) && Exchanges(more)
    ensures After(n, steps).applied <= After(n, steps + more).applied
    ensures OthersStay(n, steps, more, l, to)
    ensures var d, e := DuoIn(n, steps, l, to), DuoIn(n, steps + more, l, to);
            Paired(d, to) && Paired(e, to) && CaughtUp(e, to) && Grown(d, e, to)
    ensures |more| <= 3 * (Runs(LogIn(n, steps, to)) + 4)
    ensures var pf := LogIn(n, steps + more, l);
            Agree(LogIn(n, steps + more, to), pf, |pf|)
  {
    hide IsRun, GuardedRun, Meeting, Reaches, Trades, Leads, RunFrom, End, CaughtUp, Grown, Stuck, Formed, Round,
      WholeLog, OthersStay, Exchanges, Agree, Runs, Shaped;
    MeetingInRuns(n, steps, l, to);
    var d := DuoIn(n, steps, l, to);
    var k, e := BackupConverges(CoreAfter(n, steps).termLog, d, LogIn(n, steps, l), to, LogIn(n, steps, to));
    RunShaped(n, steps);
    assert steps[..|steps|] == steps;
    var s := After(n, steps);
    more := ReachesTrades(s, l, to, k, e);
    TradesContinue(n, steps, more, AfterRound(s.peers, l, to, e));
    TwoMove(n, steps, more, l, to, e);
    CaughtUpWhole(n, steps + more, l, to);
  }

  lemma TwoMove(n: nat, steps: seq<Step>, more: seq<Step>, l: nat, to: nat, e: Duo)
    requires IsRun(n, steps) && IsRun(n, steps + more) && |After(n, steps).peers| == n && l < n && to < n && l != to
    requires After(n, steps + more).peers == AfterRound(After(n, steps).peers, l, to, e)
    ensures DuoIn(n, steps + more, l, to) == e && OthersStay(n, steps, more, l, to)
  {
    hide IsRun;
    var all := steps + more;
    assert steps[..|steps|] == steps && all[..|all|] == all;
  }

  /** Having the leader's last entry means having its whole log. */
  lemma CaughtUpWhole(n: nat, steps: seq<Step>, l: nat, to: nat)
    requires IsRun(n, steps) && l < n && to < n
    requires Paired(DuoIn(n, steps, l, to), to) && CaughtUp(DuoIn(n, steps, l, to), to)
    ensures Agree(LogIn(n, steps, to), LogIn(n, steps, l), |LogIn(n, steps, l)|)
  {
    hide IsRun, CoreInv, Owned, Represents, PeerAt, CaughtUp, Agree;
    assert steps[..|steps|] == steps;
    CoreAfterInv(n, steps);
    OwnedNode(CoreAfter(n, steps), l);
    OwnedNode(CoreAfter(n, steps), to);
    SameEnd(CoreAfter(n, steps).termLog, DuoIn(n, steps, l, to), LogIn(n, steps, l), to, LogIn(n, steps, to));
  }

  lemma SameEnd(tl: map<nat, seq<Entry>>, d: Duo, pf: seq<Entry>, to: nat, ff: seq<Entry>)
    requires Paired(d, to) && CaughtUp(d, to) && Represents(d.leader, pf) && Represents(d.follower, ff)
    requires Owned(tl, pf) && Owned(tl, ff)
    ensures Agree(ff, pf, |pf|)
  {
    hide Owned, Represents;
    WholeEnds(d.leader, pf);
    WholeEnds(d.follower, ff);
    LogMatching(tl, ff, pf, |pf| - 1);
  }

  lemma TradesContinue(n: nat, steps: seq<Step>, more: seq<Step>, peers: seq<Peer>)
    requires IsRun(n, steps) && GuardedRun(n, steps) && Trades(After(n, steps), more, peers)
    ensures IsRun(n, steps + more) && GuardedRun(n, steps + more) && Exchanges(more)
    ensures After(n, steps + more).peers == peers && After(n, steps).applied <= After(n, steps + more).applied
  {
    hide IsRun, GuardedRun, RunFrom, End, GuardedFrom;
    Continue(n, steps, more);
  }

  /** In every guarded run, the follower of a new leader catches up, left alone with it, exactly if it is not stuck. */
  lemma CatchUpInRunsIff(n: nat, steps: seq<Step>, l: nat, to: nat)
    requires IsRun(n, steps) && GuardedRun(n, steps) && l < n && to < n && l != to
    requires var p := PeerAt(n, steps, |steps|, l);
             p.role == Leader && p.nextIndex[to] == p.Last() + 1 && PeerAt(n, steps, |steps|, to).term <= p.term
    ensures (exists k: nat :: CaughtUpAfter(DuoIn(n, steps, l, to), to, k))
       <==> !Stuck(DuoIn(n, steps, l, to), LogIn(n, steps, l), LogIn(n, steps, to))
  {
    hide IsRun, GuardedRun, Meeting, Stuck, CaughtUpAfter, WholeLog, PeerAt;
    MeetingInRuns(n, steps, l, to);
    CatchUpIff(CoreAfter(n, steps).termLog, DuoIn(n, steps, l, to), LogIn(n, steps, l), to, LogIn(n, steps, to));
  }

  /** In every guarded run, and wherever the leader is with the follower, when guarded rounds bring that up to it. */
  lemma CatchUpWithinInRunsIff(n: nat, steps: seq<Step>, l: nat, to: nat)
    requires IsRun(n, steps) && GuardedRun(n, steps) && l < n && to < n && l != to
    requires PeerAt(n, steps, |steps|, l).role == Leader
    requires PeerAt(n, steps, |steps|, to).term <= PeerAt(n, steps, |steps|, l).term
    ensures Paired(DuoIn(n, steps, l, to), to)
    ensures var d, pf, ff := DuoIn(n, steps, l, to), LogIn(n, steps, l), LogIn(n, steps, to);
            CatchesUpWithin(d, to) <==>
              CaughtUp(d, to) || (GoodStart(d, pf, to, ff) && (!Stuck(d, pf, ff) || Hits(d, pf, to, ff)))
  {
    hide IsRun, GuardedRun, Meeting, Stuck, CatchesUpWithin, CaughtUp, GoodStart, Hits, WholeLog, PeerAt;
    MeetingInRuns(n, steps, l, to);
    var tl, d, pf, ff := CoreAfter(n, steps).termLog, DuoIn(n, steps, l, to), LogIn(n, steps, l), LogIn(n, steps, to);
    MeetingBasics(tl, d, pf, to, ff);
    CatchUpWithinIff(tl, d, pf, to, ff);
  }
}
