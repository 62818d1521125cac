/**
 Catching up: how a leader finds where the log of a follower departs from its
 own, by probes, refusals and snapshots.  Nothing else happens to the two in
 the meantime.
 */
module RaftBackup {
  import opened RaftTypes
  import opened RaftCore
  import opened RaftPeer
  import opened RaftCompaction
  import opened RaftSteps
  import opened RaftSafety
  import opened RaftRules

  /** A leader and one of its followers. */
  datatype Duo = Duo(leader: Peer, follower: Peer)

  predicate Paired(d: Duo, to: nat) {
    && |d.leader.logs| > 0 && |d.follower.logs| > 0
    && to < |d.leader.nextIndex| == |d.leader.matchIndex| && d.leader.nextIndex[to] >= 1
  }

  /** One probe, its answer, and what the leader makes of it; `None` if that kills the leader. */
  function Round(d: Duo, to: nat): Option<Duo>
    requires Paired(d, to)
  {
    match CheckConsistency(d.leader, to)
    case Silent => Some(d)
    case SendAppend(args) =>
      var (f, reply) := HandleAppend(d.follower, args);
      var l := HandleAppendReply(d.leader, to, args, reply);
      if l.None? then None else Some(Duo(l.value, f))
    case SendSnapshot(args) =>
      var (f, term) := HandleSnapshot(d.follower, args);
      Some(Duo(HandleSnapshotReply(d.leader, to, args, term), f))
  }

  /** A leader probes, from within its log. */
  predicate Within(d: Duo, to: nat)
    requires Paired(d, to)
  {
    d.leader.role == Leader && d.leader.nextIndex[to] <= d.leader.Last() + 1
  }

  /** `k` rounds, all with probes from within the leader's log, lead from `d` to `e`. */
  predicate Reaches(d: Duo, to: nat, k: nat, e: Duo)
    decreases k
  {
    if k == 0 then d == e
    else Paired(d, to) && Within(d, to) && Round(d, to).Some? && Reaches(Round(d, to).value, to, k - 1, e)
  }

  lemma {:induction false} ReachesOn(d: Duo, to: nat, k: nat, e: Duo, m: nat, g: Duo)
    requires Reaches(d, to, k, e) && Reaches(e, to, m, g)
    ensures Reaches(d, to, k + m, g)
    decreases k
  {
    hide Round;
    if k > 0 {
      ReachesOn(Round(d, to).value, to, k - 1, e, m, g);
    }
  }

  // ---------------------------------------------------------------- where the two stand

  /**
   What holds of a leader, whose whole log is `pf`, and a server of its term or
   an earlier one, whose whole log is `ff`: what the server knows to be committed
   the leader has too.
   */
  ghost predicate Meeting(tl: map<nat, seq<Entry>>, d: Duo, pf: seq<Entry>, to: nat, ff: seq<Entry>) {
    && Paired(d, to) && d.leader.role == Leader && d.follower.term <= d.leader.term
    && Represents(d.leader, pf) && Represents(d.follower, ff)
    && d.leader.term in tl && tl[d.leader.term] == pf && Owned(tl, pf) && Owned(tl, ff)
    && Agree(ff, pf, Settled(d.follower) + 1)
    && d.leader.matchIndex[to] < |pf| && d.leader.commitIndex < |pf|
  }

  /** The follower has the leader's last entry, and the leader knows. */
  predicate CaughtUp(d: Duo, to: nat)
    requires Paired(d, to)
  {
    var last := d.leader.Last();
    && d.follower.snapshotIndex <= last <= d.follower.Last()
    && d.follower.logs[last - d.follower.snapshotIndex].term == d.leader.logs[|d.leader.logs| - 1].term
    && d.leader.matchIndex[to] == last
  }

  lemma WholeEnds(p: Peer, full: seq<Entry>)
    requires Represents(p, full)
    ensures |p.logs| > 0 && p.Last() == |full| - 1 && p.logs[|p.logs| - 1].term == full[|full| - 1].term
    ensures forall k :: p.snapshotIndex <= k < |full| ==> p.logs[k - p.snapshotIndex].term == full[k].term
  {
  }

  /** The leader after it has heard that the follower has its whole log, which ends at `last`. */
  predicate Advanced(p: Peer, to: nat, last: nat, q: Peer)
    requires to < |p.nextIndex| == |p.matchIndex| && |p.logs| > 0
  {
    if p.matchIndex[to] == last then q == p
    else
      && q == p.(nextIndex := p.nextIndex[to := last + 1], matchIndex := p.matchIndex[to := last],
                 commitIndex := q.commitIndex)
      && (q.commitIndex == last || q.commitIndex == p.commitIndex) && q.commitIndex >= p.commitIndex
      && (CanCommit(p, last, q.matchIndex) ==> q.commitIndex == last)
  }

  /** The paper's rule for the leader's last entry. */
  predicate CanCommit(p: Peer, last: nat, matchIndex: seq<nat>)
    requires |p.logs| > 0
  {
    && last > p.commitIndex && p.logs[|p.logs| - 1].term == p.term
    && Majority(Matched(matchIndex, last), |p.nextIndex|)
  }

  /** The request a leader sends from an entry of its stored log. */
  function Request(p: Peer, pf: seq<Entry>, prev: nat): AppendArgs
    requires prev < |pf|
  {
    AppendArgs(p.term, p.me, prev, pf[prev].term, pf[prev + 1..], p.commitIndex)
  }

  /** The follower's side of an accepted request. */
  lemma Accepting(tl: map<nat, seq<Entry>>, p: Peer, pf: seq<Entry>, f: Peer, ff: seq<Entry>, prev: nat)
    returns (g: Peer, ff': seq<Entry>)
    requires p.term in tl && tl[p.term] == pf && Owned(tl, pf) && Owned(tl, ff) && Represents(f, ff)
    requires f.term <= p.term && f.snapshotIndex <= prev < |ff| && prev < |pf| && ff[prev].term == pf[prev].term
    requires Agree(ff, pf, Settled(f) + 1) && p.commitIndex < |pf|
    ensures HandleAppend(f, Request(p, pf, prev)) == (g, AppendReply(p.term, true, 0))
    ensures Represents(g, ff') && Owned(tl, ff') && Agree(ff', pf, |pf|) && Settled(g) < |pf|
    ensures g.term == p.term && g.snapshotIndex == f.snapshotIndex && g.commitIndex == Max(f.commitIndex, p.commitIndex)
    ensures g.lastApplied == f.lastApplied && g.nextIndex == f.nextIndex && g.matchIndex == f.matchIndex && g.me == f.me
    ensures g.role == Follower
  {
    hide HandleAppend, Represents, Owned, Merge;
    var args := Request(p, pf, prev);
    WholeEnds(f, ff);
    AnswerRule(f, ff, args);
    AcceptRule(f, ff, args);
    g := HandleAppend(f, args).0;
    ff' := Merge(ff, prev + 1, args.entries);
    assert args.entries == pf[prev + 1..prev + 1 + |args.entries|];
    MergeIsAccept(tl, ff, args);
    OwnedTaken(tl, ff, pf, ff');
    AcceptReply(f, args);
  }

  lemma AcceptReply(f: Peer, args: AppendArgs)
    requires |f.logs| > 0 && HandleAppend(f, args).1.success
    ensures HandleAppend(f, args).1 == AppendReply(args.term, true, 0)
  {
  }

  /** The leader's side of it. */
  lemma Hearing(p: Peer, pf: seq<Entry>, to: nat, prev: nat) returns (q: Peer)
    requires Represents(p, pf) && p.role == Leader && to < |p.nextIndex| == |p.matchIndex| && prev < |pf|
    requires p.matchIndex[to] < |pf|
    ensures |p.logs| > 0
    ensures HandleAppendReply(p, to, Request(p, pf, prev), AppendReply(p.term, true, 0)) == Some(q)
    ensures Advanced(p, to, |pf| - 1, q) && Represents(q, pf) && q.matchIndex[to] == |pf| - 1
  {
    hide HandleAppendReply, Represents, Matched;
    var reply, args := AppendReply(p.term, true, 0), Request(p, pf, prev);
    ReplyRule(p, pf, to, args, reply);
    WholeEnds(p, pf);
    q := HandleAppendReply(p, to, args, reply).value;
    RepresentsSame(p, q, pf);
  }

  /** A probe from an entry that both have gives the follower the whole log of the leader. */
  lemma AcceptedRound(tl: map<nat, seq<Entry>>, d: Duo, pf: seq<Entry>, to: nat, ff: seq<Entry>)
    returns (e: Duo, ff': seq<Entry>)
    requires Meeting(tl, d, pf, to, ff)
    requires var prev := d.leader.nextIndex[to] - 1;
             && d.leader.snapshotIndex <= prev < |pf| && d.follower.snapshotIndex <= prev < |ff|
             && ff[prev].term == pf[prev].term
    ensures Round(d, to) == Some(e) && Meeting(tl, e, pf, to, ff') && CaughtUp(e, to) && Agree(ff', pf, |pf|)
    ensures Grown(d, e, to)
  {
    hide HandleAppend, HandleAppendReply, CheckConsistency, Represents, Owned, Advanced, CanCommit;
    var p, f, prev := d.leader, d.follower, d.leader.nextIndex[to] - 1;
    ProbeRule(p, pf, to);
    assert CheckConsistency(p, to) == SendAppend(Request(p, pf, prev));
    var g, q;
    g, ff' := Accepting(tl, p, pf, f, ff, prev);
    q := Hearing(p, pf, to, prev);
    e := Duo(q, g);
    WholeEnds(g, ff');
    WholeEnds(q, pf);
    WholeEnds(p, pf);
    AdvancedGrown(d, to, |pf| - 1, e);
  }

  /**
   What rounds with follower `to` leave as it was. The leader's commit index goes
   to its last entry as soon as the paper's rule allows it.
   */
  ghost predicate Grown(d: Duo, e: Duo, to: nat)
    requires Paired(d, to)
  {
    var p, q, f, g, last := d.leader, e.leader, d.follower, e.follower, d.leader.Last();
    && q == p.(nextIndex := q.nextIndex, matchIndex := q.matchIndex, commitIndex := q.commitIndex)
    && |q.nextIndex| == |p.nextIndex| && |q.matchIndex| == |p.matchIndex|
    && (forall j :: 0 <= j < |p.nextIndex| && j != to ==>
          q.nextIndex[j] == p.nextIndex[j] && q.matchIndex[j] == p.matchIndex[j])
    && p.commitIndex <= q.commitIndex && (q.commitIndex == p.commitIndex || q.commitIndex == last)
    && (p.matchIndex[to] < last && p.snapshotIndex < last && CanCommit(p, last, q.matchIndex) ==> q.commitIndex == last)
    && g.me == f.me && g.term == p.term && g.role == Follower && g.nextIndex == f.nextIndex
    && g.matchIndex == f.matchIndex
    && g.lastApplied == f.lastApplied && g.snapshotIndex >= f.snapshotIndex
    && g.commitIndex == Max(f.commitIndex, p.commitIndex)
  }

  /** A round that moves only the indexes for the follower, and then the others. */
  lemma GrownOn(d: Duo, g: Duo, e: Duo, to: nat)
    requires Paired(d, to) && Paired(g, to) && Grown(g, e, to)
    requires g.leader == d.leader.(nextIndex := g.leader.nextIndex, matchIndex := g.leader.matchIndex)
    requires |g.leader.nextIndex| == |d.leader.nextIndex|
    requires forall j :: 0 <= j < |d.leader.nextIndex| && j != to ==>
               g.leader.nextIndex[j] == d.leader.nextIndex[j] && g.leader.matchIndex[j] == d.leader.matchIndex[j]
    requires g.leader.matchIndex[to] == d.leader.matchIndex[to] || g.leader.matchIndex[to] == d.leader.snapshotIndex
    requires var f, h := d.follower, g.follower;
             && h.me == f.me && h.nextIndex == f.nextIndex && h.matchIndex == f.matchIndex
             && h.lastApplied == f.lastApplied && h.snapshotIndex >= f.snapshotIndex && h.commitIndex == f.commitIndex
    ensures Grown(d, e, to)
  {
    hide Matched;
  }

  lemma AdvancedGrown(d: Duo, to: nat, last: nat, e: Duo)
    requires Paired(d, to) && last == d.leader.Last() && Advanced(d.leader, to, last, e.leader)
    requires d.leader.matchIndex[to] <= last
    requires var f, g, p := d.follower, e.follower, d.leader;
             && g.me == f.me && g.term == p.term && g.role == Follower && g.nextIndex == f.nextIndex
             && g.matchIndex == f.matchIndex && g.lastApplied == f.lastApplied && g.snapshotIndex == f.snapshotIndex
             && g.commitIndex == Max(f.commitIndex, p.commitIndex)
    ensures Grown(d, e, to) && e.leader.nextIndex[to] >= 1
  {
    hide Matched;
  }

  lemma RepresentsSame(p: Peer, q: Peer, full: seq<Entry>)
    requires Represents(p, full) && q.logs == p.logs && q.snapshotIndex == p.snapshotIndex
    ensures Represents(q, full)
  {
  }

  lemma OwnedTaken(tl: map<nat, seq<Entry>>, ff: seq<Entry>, pf: seq<Entry>, ff': seq<Entry>)
    requires Owned(tl, ff) && Owned(tl, pf) && ff' == if Agree(ff, pf, |pf|) then ff else pf[..|pf|]
    ensures Owned(tl, ff') && Agree(ff', pf, |pf|)
  {
    assert pf[..|pf|] == pf;
  }

  /** A refused probe changes nothing but where the leader tries next. */
  lemma RefusedRound(tl: map<nat, seq<Entry>>, d: Duo, pf: seq<Entry>, to: nat, ff: seq<Entry>)
    returns (e: Duo, conflict: nat)
    requires Meeting(tl, d, pf, to, ff)
    requires var prev := d.leader.nextIndex[to] - 1;
             && d.leader.snapshotIndex <= prev < |pf|
             && !(d.follower.snapshotIndex <= prev < |ff| && ff[prev].term == pf[prev].term)
    ensures Round(d, to) == Some(e) && Meeting(tl, e, pf, to, ff)
    ensures e.leader == d.leader.(nextIndex := d.leader.nextIndex[to := Max(1, conflict)])
    ensures e.follower == Heed(d.follower, d.leader.term)
    ensures var s, prev := d.follower.snapshotIndex, d.leader.nextIndex[to] - 1;
            if s <= prev < |ff| then RunFromTo(ff, s, conflict, prev) else conflict == |ff|
  {
    hide HandleAppend, HandleAppendReply, CheckConsistency, Represents, Owned, RunFromTo;
    var p, f, prev := d.leader, d.follower, d.leader.nextIndex[to] - 1;
    ProbeRule(p, pf, to);
    var args := AppendArgs(p.term, p.me, prev, pf[prev].term, pf[prev + 1..], p.commitIndex);
    assert CheckConsistency(p, to) == SendAppend(args);
    AnswerRule(f, ff, args);
    var (g, reply) := HandleAppend(f, args);
    conflict := reply.conflictIndex;
    ReplyRule(p, pf, to, args, reply);
    e := Duo(HandleAppendReply(p, to, args, reply).value, g);
    RepresentsSame(p, e.leader, pf);
    RepresentsSame(f, g, ff);
  }

  /** Every refusal of a probe that is not behind the follower's snapshot makes the leader step back. */
  lemma StepsBack(tl: map<nat, seq<Entry>>, d: Duo, pf: seq<Entry>, to: nat, ff: seq<Entry>)
    requires Meeting(tl, d, pf, to, ff) && d.leader.snapshotIndex < d.leader.nextIndex[to] <= |pf|
    requires d.follower.snapshotIndex < d.leader.nextIndex[to]
    requires var prev := d.leader.nextIndex[to] - 1; !(prev < |ff| && ff[prev].term == pf[prev].term)
    ensures Round(d, to).Some? && Paired(Round(d, to).value, to)
    ensures 1 <= Round(d, to).value.leader.nextIndex[to] < d.leader.nextIndex[to]
  {
    hide Round, Owned, Represents;
    var e, conflict := RefusedRound(tl, d, pf, to, ff);
  }

  /** A snapshot brings the follower at least as far as the snapshot, and the leader goes on right behind it. */
  lemma SnapshotRound(tl: map<nat, seq<Entry>>, d: Duo, pf: seq<Entry>, to: nat, ff: seq<Entry>)
    returns (e: Duo, ff': seq<Entry>)
    requires Meeting(tl, d, pf, to, ff) && d.leader.nextIndex[to] <= d.leader.snapshotIndex
    ensures var s := d.leader.snapshotIndex;
            && Round(d, to) == Some(e) && Meeting(tl, e, pf, to, ff')
            && e.leader == d.leader.(nextIndex := d.leader.nextIndex[to := s + 1],
                matchIndex := d.leader.matchIndex[to := s])
            && e.follower == Heed(d.follower, d.leader.term).(
                               snapshotIndex := e.follower.snapshotIndex, logs := e.follower.logs)
            && e.follower.snapshotIndex >= d.follower.snapshotIndex
            && (s >= d.follower.snapshotIndex ==>
                  e.follower.snapshotIndex <= s < |ff'| && ff'[s].term == pf[s].term)
            && (s <= d.follower.snapshotIndex ==> e.follower == Heed(d.follower, d.leader.term) && ff' == ff)
  {
    hide HandleSnapshot, HandleSnapshotReply, CheckConsistency, Represents, Owned;
    var p, f, s := d.leader, d.follower, d.leader.snapshotIndex;
    ProbeRule(p, pf, to);
    WholeEnds(p, pf);
    var args := SnapshotArgs(p.term, p.me, s, pf[s].term);
    assert CheckConsistency(p, to) == SendSnapshot(args);
    InstallRule(f, ff, pf, args);
    SnapshotReplyRule(p, to, args, HandleSnapshot(f, args).1);
    e := Duo(HandleSnapshotReply(p, to, args, HandleSnapshot(f, args).1), HandleSnapshot(f, args).0);
    if s > f.snapshotIndex && s > f.commitIndex {
      var kept := s < |ff| && ff[s].term == pf[s].term;
      ff' := if kept then ff else pf[..s + 1];
      if kept {
        LogMatching(tl, ff, pf, s);
      } else {
        OwnedPrefix(tl, pf, s + 1);
      }
    } else {
      ff' := ff;
      RepresentsSame(f, e.follower, ff);
    }
    WholeEnds(e.follower, ff');
    RepresentsSame(p, e.leader, pf);
  }

  lemma OwnedPrefix(tl: map<nat, seq<Entry>>, log: seq<Entry>, k: nat)
    requires Owned(tl, log) && k <= |log|
    ensures Owned(tl, log[..k])
  {
  }

  // ---------------------------------------------------------------- counting the rounds

  /** Number of maximal runs of equal terms. */
  function Runs(log: seq<Entry>): nat {
    if log == [] then 0
    else if |log| == 1 || log[|log| - 1].term != log[|log| - 2].term then 1 + Runs(log[..|log| - 1])
    else Runs(log[..|log| - 1])
  }

  /** Cutting a log before the run that its last entry belongs to removes one run. */
  lemma {:induction false} RunsBeforeRun(log: seq<Entry>, k: nat, i: nat)
    requires i < |log| && RunFromTo(log, 0, k, i)
    ensures Runs(log[..i + 1]) == 1 + Runs(log[..k])
    decreases i
  {
    var cut := log[..i + 1];
    assert cut[..|cut| - 1] == log[..i];
    if i > k {
      RunsBeforeRun(log, k, i - 1);
    }
  }

  lemma {:induction false} RunsMonotone(log: seq<Entry>, i: nat)
    requires i <= |log|
    ensures Runs(log[..i]) <= Runs(log)
    decreases |log|
  {
    if i == |log| {
      assert log[..i] == log;
    } else {
      assert log[..|log| - 1][..i] == log[..i];
      RunsMonotone(log[..|log| - 1], i);
    }
  }

  // ---------------------------------------------------------------- when the follower catches up

  /**
   The follower has compacted further than the leader, and differs from the
   leader inside the run of terms that its snapshot ends in. It then points the
   leader before its snapshot, where it cannot be probed.
   */
  ghost predicate Stuck(d: Duo, pf: seq<Entry>, ff: seq<Entry>) {
    var s := d.follower.snapshotIndex;
    d.leader.snapshotIndex < s && exists k: nat :: DiffersAt(pf, ff, s, k)
  }

  predicate DiffersAt(pf: seq<Entry>, ff: seq<Entry>, s: nat, k: nat) {
    && s < k < |ff| && k < |pf| && pf[k].term != ff[k].term
    && forall j :: s <= j <= k ==> ff[j].term == ff[s].term
  }

  lemma MeetingBasics(tl: map<nat, seq<Entry>>, d: Duo, pf: seq<Entry>, to: nat, ff: seq<Entry>)
    requires Meeting(tl, d, pf, to, ff)
    ensures Paired(d, to) && d.leader.role == Leader && d.leader.Last() == |pf| - 1 && d.follower.Last() == |ff| - 1
    ensures d.leader.snapshotIndex < |pf| && d.follower.snapshotIndex < |ff|
    ensures d.follower.snapshotIndex < |pf| && ff[d.follower.snapshotIndex] == pf[d.follower.snapshotIndex]
    ensures |ff| > 0 && ff[0] == pf[0]
  {
    hide Owned;
    WholeEnds(d.leader, pf);
    WholeEnds(d.follower, ff);
  }

  /** One round, and then the others. */
  lemma OneRound(d: Duo, to: nat, e: Duo, k: nat, g: Duo)
    requires Paired(d, to) && Within(d, to) && Round(d, to) == Some(e) && Reaches(e, to, k, g)
    ensures Reaches(d, to, k + 1, g)
  {
    hide Round;
  }

  /** The last round. */
  lemma Accepted(tl: map<nat, seq<Entry>>, d: Duo, pf: seq<Entry>, to: nat, ff: seq<Entry>) returns (e: Duo)
    requires Meeting(tl, d, pf, to, ff)
    requires var prev := d.leader.nextIndex[to] - 1;
             && d.leader.snapshotIndex <= prev < |pf| && d.follower.snapshotIndex <= prev < |ff|
             && ff[prev].term == pf[prev].term
    ensures Reaches(d, to, 1, e) && Paired(e, to) && CaughtUp(e, to) && Grown(d, e, to)
  {
    hide Round, CaughtUp, Grown, Meeting, Reaches;
    MeetingBasics(tl, d, pf, to, ff);
    var ff';
    e, ff' := AcceptedRound(tl, d, pf, to, ff);
    MeetingBasics(tl, e, pf, to, ff');
    assert Reaches(e, to, 0, e) by { ReachesSelf(e, to); }
    OneRound(d, to, e, 0, e);
  }

  lemma ReachesSelf(d: Duo, to: nat)
    ensures Reaches(d, to, 0, d)
  {
  }

  /** A snapshot that is not behind the follower's own, and one request. */
  lemma FromSnapshot(tl: map<nat, seq<Entry>>, d: Duo, pf: seq<Entry>, to: nat, ff: seq<Entry>) returns (e: Duo)
    requires Meeting(tl, d, pf, to, ff)
    requires d.leader.nextIndex[to] <= d.leader.snapshotIndex && d.follower.snapshotIndex <= d.leader.snapshotIndex
    ensures Reaches(d, to, 2, e) && Paired(e, to) && CaughtUp(e, to) && Grown(d, e, to)
  {
    hide Round, CaughtUp, Grown, Meeting, Reaches;
    MeetingBasics(tl, d, pf, to, ff);
    var g, ff' := SnapshotRound(tl, d, pf, to, ff);
    MeetingBasics(tl, g, pf, to, ff');
    e := Accepted(tl, g, pf, to, ff');
    OneRound(d, to, g, 1, e);
    GrownOn(d, g, e, to);
  }

  /** From within the follower's log, a round for every run of terms, and two more. */
  lemma {:induction false} WalksBack(tl: map<nat, seq<Entry>>, d: Duo, pf: seq<Entry>, to: nat, ff: seq<Entry>)
    returns (k: nat, e: Duo)
    requires Meeting(tl, d, pf, to, ff) && !Stuck(d, pf, ff)
    requires var next := d.leader.nextIndex[to];
             next <= |pf| && next <= |ff| && d.follower.snapshotIndex < next && d.leader.snapshotIndex < next
    ensures k <= Runs(ff[..d.leader.nextIndex[to]]) + 2
    ensures Reaches(d, to, k, e) && Paired(e, to) && CaughtUp(e, to) && Grown(d, e, to)
    decreases d.leader.nextIndex[to]
  {
    hide Round, CaughtUp, Grown, RunFromTo, Runs, Meeting, Reaches;
    MeetingBasics(tl, d, pf, to, ff);
    var next, s := d.leader.nextIndex[to], d.follower.snapshotIndex;
    SomeRun(ff, next);
    if ff[next - 1].term == pf[next - 1].term {
      e := Accepted(tl, d, pf, to, ff);
      k := 1;
    } else {
      var g, conflict := RefusedRound(tl, d, pf, to, ff);
      MeetingBasics(tl, g, pf, to, ff);
      WhereNext(d, pf, ff, s, conflict, next - 1);
      if Max(1, conflict) <= g.leader.snapshotIndex {
        e := FromSnapshot(tl, g, pf, to, ff);
        k := 3;
        OneRound(d, to, g, 2, e);
        GrownOn(d, g, e, to);
      } else if conflict == 0 {
        e := Accepted(tl, g, pf, to, ff);
        k := 2;
        OneRound(d, to, g, 1, e);
        GrownOn(d, g, e, to);
      } else {
        var m;
        m, e := WalksBack(tl, g, pf, to, ff);
        k := m + 1;
        OneRound(d, to, g, m, e);
        GrownOn(d, g, e, to);
      }
    }
  }

  lemma SomeRun(log: seq<Entry>, k: nat)
    requires 0 < k <= |log|
    ensures Runs(log[..k]) >= 1
  {
    RunStartIs(log, k - 1);
    RunsBeforeRun(log, RunStart(log, k - 1), k - 1);
  }

  /** Where a refusal inside the follower's log sends the leader. */
  lemma WhereNext(d: Duo, pf: seq<Entry>, ff: seq<Entry>, s: nat, conflict: nat, prev: nat)
    requires !Stuck(d, pf, ff) && s == d.follower.snapshotIndex && s <= prev < |ff| && prev < |pf|
    requires RunFromTo(ff, s, conflict, prev) && ff[prev].term != pf[prev].term && s < |pf| && ff[s] == pf[s]
    requires ff[0] == pf[0]
    ensures 1 <= Max(1, conflict) <= prev
    ensures conflict == s && s > 0 ==> s <= d.leader.snapshotIndex
    ensures Max(1, conflict) > s || s <= d.leader.snapshotIndex
    ensures Max(1, conflict) > s && conflict > 0 ==> Runs(ff[..prev + 1]) == 1 + Runs(ff[..conflict])
    ensures conflict == 0 ==> s == 0
  {
    hide Runs;
    assert prev > s;
    if conflict == s {
      assert s < prev && DiffersAt(pf, ff, s, prev);
    }
    if conflict > s {
      assert RunFromTo(ff, 0, conflict, prev);
      RunsBeforeRun(ff, conflict, prev);
    }
  }

  /**
   The next index is in the leader's log or right behind it, and past the
   follower's snapshot unless the leader's snapshot or log reaches as far as the
   follower's.
   */
  predicate GoodStart(d: Duo, pf: seq<Entry>, to: nat, ff: seq<Entry>)
    requires Paired(d, to)
  {
    var next := d.leader.nextIndex[to];
    && next <= |pf|
    && (d.follower.snapshotIndex < next || d.follower.snapshotIndex <= d.leader.snapshotIndex || |ff| <= |pf|)
  }

  /** A refusal for being outside the follower's log sends the leader to its end. */
  lemma FromEnd(tl: map<nat, seq<Entry>>, d: Duo, pf: seq<Entry>, to: nat, ff: seq<Entry>) returns (k: nat, e: Duo)
    requires Meeting(tl, d, pf, to, ff) && !Stuck(d, pf, ff)
    requires var prev := d.leader.nextIndex[to] - 1;
             && d.leader.snapshotIndex <= prev < |pf| && !(d.follower.snapshotIndex <= prev < |ff|) && |ff| <= |pf|
    ensures k <= Runs(ff) + 3 && Reaches(d, to, k, e) && Paired(e, to) && CaughtUp(e, to) && Grown(d, e, to)
  {
    hide Round, CaughtUp, Grown, RunFromTo, Runs, Meeting, Reaches;
    MeetingBasics(tl, d, pf, to, ff);
    var g, conflict := RefusedRound(tl, d, pf, to, ff);
    MeetingBasics(tl, g, pf, to, ff);
    var m;
    if |ff| <= g.leader.snapshotIndex {
      e := FromSnapshot(tl, g, pf, to, ff);
      m := 2;
    } else {
      m, e := WalksBack(tl, g, pf, to, ff);
      assert ff[..|ff|] == ff;
    }
    k := m + 1;
    OneRound(d, to, g, m, e);
    GrownOn(d, g, e, to);
  }

  /** Unless it is stuck, the follower catches up within four rounds and one for each run of terms in its log. */
  lemma BackupConverges(
    tl: map<nat, seq<Entry>>, d: Duo, pf: seq<Entry>, to: nat, ff: seq<Entry>) returns (k: nat, e: Duo)
    requires Meeting(tl, d, pf, to, ff) && !Stuck(d, pf, ff) && GoodStart(d, pf, to, ff)
    ensures k <= Runs(ff) + 4 && Reaches(d, to, k, e) && Paired(e, to) && CaughtUp(e, to) && Grown(d, e, to)
  {
    hide Round, CaughtUp, Grown, RunFromTo, Runs, Meeting, Reaches;
    MeetingBasics(tl, d, pf, to, ff);
    var next, s := d.leader.nextIndex[to], d.follower.snapshotIndex;
    if next <= d.leader.snapshotIndex {
      if s <= d.leader.snapshotIndex {
        e := FromSnapshot(tl, d, pf, to, ff);
        k := 2;
      } else {
        var g, _ := SnapshotRound(tl, d, pf, to, ff);
        MeetingBasics(tl, g, pf, to, ff);
        var m;
        m, e := FromEnd(tl, g, pf, to, ff);
        k := m + 1;
        OneRound(d, to, g, m, e);
        GrownOn(d, g, e, to);
      }
    } else if s < next <= |ff| {
      k, e := WalksBack(tl, d, pf, to, ff);
      RunsMonotone(ff, next);
    } else {
      k, e := FromEnd(tl, d, pf, to, ff);
    }
  }

  // ---------------------------------------------------------------- when it does not

  /** The next index lies before the follower's snapshot, or behind an entry in which the two differ. */
  predicate Off(d: Duo, to: nat, s: nat, k: nat)
    requires Paired(d, to)
  {
    d.leader.nextIndex[to] <= s || d.leader.nextIndex[to] > k
  }

  /** Entries behind a difference differ too. */
  lemma StillDiffers(tl: map<nat, seq<Entry>>, pf: seq<Entry>, ff: seq<Entry>, k: nat, j: nat)
    requires Owned(tl, pf) && Owned(tl, ff) && k <= j < |ff| && j < |pf| && pf[k].term != ff[k].term
    ensures pf[j].term != ff[j].term
  {
    if pf[j].term == ff[j].term {
      LogMatching(tl, pf, ff, j);
    }
  }

  /** A run that ends behind the difference starts at the snapshot or behind the difference. */
  lemma RunAround(pf: seq<Entry>, ff: seq<Entry>, s: nat, k: nat, conflict: nat, prev: nat)
    requires DiffersAt(pf, ff, s, k) && k <= prev < |ff| && RunFromTo(ff, s, conflict, prev)
    ensures conflict == s || conflict > k
  {
    assert s <= conflict <= k ==> ff[conflict].term == ff[s].term;
  }

  lemma StuckRefusal(tl: map<nat, seq<Entry>>, d: Duo, pf: seq<Entry>, to: nat, ff: seq<Entry>, k: nat) returns (e: Duo)
    requires Meeting(tl, d, pf, to, ff) && d.leader.snapshotIndex < d.follower.snapshotIndex
    requires DiffersAt(pf, ff, d.follower.snapshotIndex, k) && Off(d, to, d.follower.snapshotIndex, k)
    requires d.leader.snapshotIndex < d.leader.nextIndex[to] <= |pf|
    ensures Round(d, to) == Some(e) && Meeting(tl, e, pf, to, ff) && Off(e, to, d.follower.snapshotIndex, k)
    ensures e.follower.snapshotIndex == d.follower.snapshotIndex && e.leader.snapshotIndex == d.leader.snapshotIndex
  {
    hide Round, Represents, Owned, RunFromTo;
    var s, prev := d.follower.snapshotIndex, d.leader.nextIndex[to] - 1;
    if s <= prev < |ff| {
      StillDiffers(tl, pf, ff, k, prev);
    }
    var conflict;
    e, conflict := RefusedRound(tl, d, pf, to, ff);
    if s <= prev < |ff| {
      RunAround(pf, ff, s, k, conflict, prev);
    }
  }

  /** A probe from beyond the leader's log is refused, or kills the leader. */
  lemma BeyondRound(tl: map<nat, seq<Entry>>, d: Duo, pf: seq<Entry>, to: nat, ff: seq<Entry>) returns (conflict: nat)
    requires Meeting(tl, d, pf, to, ff) && d.leader.nextIndex[to] > |pf|
    ensures Round(d, to).None?
         || (&& Round(d, to) == Some(Duo(d.leader.(nextIndex := d.leader.nextIndex[to := Max(1, conflict)]),
                                         Heed(d.follower, d.leader.term)))
             && var s, prev := d.follower.snapshotIndex, d.leader.nextIndex[to] - 1;
                if s <= prev < |ff| then RunFromTo(ff, s, conflict, prev) else conflict == |ff|)
  {
    hide HandleAppend, HandleAppendReply, CheckConsistency, Represents, Owned, RunFromTo;
    var p, f, prev := d.leader, d.follower, d.leader.nextIndex[to] - 1;
    WholeEnds(p, pf);
    ProbeRule(p, pf, to);
    var args := AppendArgs(p.term, p.me, prev, pf[|pf| - 1].term, [], p.commitIndex);
    assert CheckConsistency(p, to) == SendAppend(args);
    AnswerRule(f, ff, args);
    var reply := HandleAppend(f, args).1;
    conflict := reply.conflictIndex;
    ReplyRule(p, pf, to, args, reply);
  }

  lemma StuckRound(tl: map<nat, seq<Entry>>, d: Duo, pf: seq<Entry>, to: nat, ff: seq<Entry>, k: nat)
    requires Meeting(tl, d, pf, to, ff) && d.leader.snapshotIndex < d.follower.snapshotIndex
    requires DiffersAt(pf, ff, d.follower.snapshotIndex, k) && Off(d, to, d.follower.snapshotIndex, k)
    ensures Round(d, to).Some? ==>
              var e := Round(d, to).value;
              && Meeting(tl, e, pf, to, ff) && Off(e, to, d.follower.snapshotIndex, k)
              && e.follower.snapshotIndex == d.follower.snapshotIndex
              && e.leader.snapshotIndex == d.leader.snapshotIndex
  {
    hide Round, Represents, Owned, RunFromTo, DiffersAt;
    var s, next := d.follower.snapshotIndex, d.leader.nextIndex[to];
    if next <= d.leader.snapshotIndex {
      var e, _ := SnapshotRound(tl, d, pf, to, ff);
    } else if next <= |pf| {
      var e := StuckRefusal(tl, d, pf, to, ff, k);
    } else {
      var conflict := BeyondRound(tl, d, pf, to, ff);
      if Round(d, to).Some? {
        BeyondStuck(tl, d, pf, to, ff, k, conflict);
      }
    }
  }

  lemma BeyondStuck(tl: map<nat, seq<Entry>>, d: Duo, pf: seq<Entry>, to: nat, ff: seq<Entry>, k: nat, conflict: nat)
    requires Meeting(tl, d, pf, to, ff) && d.leader.snapshotIndex < d.follower.snapshotIndex
    requires DiffersAt(pf, ff, d.follower.snapshotIndex, k) && d.leader.nextIndex[to] > |pf|
    requires var s, prev := d.follower.snapshotIndex, d.leader.nextIndex[to] - 1;
             if s <= prev < |ff| then RunFromTo(ff, s, conflict, prev) else conflict == |ff|
    ensures var e := Duo(d.leader.(nextIndex := d.leader.nextIndex[to := Max(1, conflict)]),
            Heed(d.follower, d.leader.term));
            Meeting(tl, e, pf, to, ff) && Off(e, to, d.follower.snapshotIndex, k)
  {
    hide Represents, Owned, RunFromTo;
    var p, f := d.leader.(nextIndex := d.leader.nextIndex[to := Max(1, conflict)]), Heed(d.follower, d.leader.term);
    var s, prev := d.follower.snapshotIndex, d.leader.nextIndex[to] - 1;
    RepresentsSame(d.leader, p, pf);
    RepresentsSame(d.follower, f, ff);
    if s <= prev < |ff| {
      RunAround(pf, ff, s, k, conflict, prev);
    }
  }

  /** What `k` rounds make of the two, whatever the probes start from. */
  function Rounds(d: Duo, to: nat, k: nat): Option<Duo>
    decreases k
  {
    if k == 0 then Some(d)
    else if !Paired(d, to) || Round(d, to).None? then None
    else Rounds(Round(d, to).value, to, k - 1)
  }

  lemma {:induction false} ReachesIsRounds(d: Duo, to: nat, k: nat, e: Duo)
    requires Reaches(d, to, k, e)
    ensures Rounds(d, to, k) == Some(e)
    decreases k
  {
    hide Round;
    if k > 0 {
      ReachesIsRounds(Round(d, to).value, to, k - 1, e);
    }
  }

  predicate CaughtUpAfter(d: Duo, to: nat, k: nat) {
    var e := Rounds(d, to, k);
    e.Some? && Paired(e.value, to) && CaughtUp(e.value, to)
  }

  lemma {:induction false} NeverCatchesUp(
    tl: map<nat, seq<Entry>>, d: Duo, pf: seq<Entry>, to: nat, ff: seq<Entry>, k: nat, m: nat)
    requires Meeting(tl, d, pf, to, ff) && d.leader.snapshotIndex < d.follower.snapshotIndex
    requires DiffersAt(pf, ff, d.follower.snapshotIndex, k) && Off(d, to, d.follower.snapshotIndex, k)
    ensures !CaughtUpAfter(d, to, m)
    decreases m
  {
    hide Round, Meeting, DiffersAt, CaughtUp;
    if m == 0 {
      NotCaughtUp(tl, d, pf, to, ff, k);
    } else if Paired(d, to) && Round(d, to).Some? {
      StuckRound(tl, d, pf, to, ff, k);
      NeverCatchesUp(tl, Round(d, to).value, pf, to, ff, k, m - 1);
    }
  }

  lemma NotCaughtUp(tl: map<nat, seq<Entry>>, d: Duo, pf: seq<Entry>, to: nat, ff: seq<Entry>, k: nat)
    requires Meeting(tl, d, pf, to, ff) && DiffersAt(pf, ff, d.follower.snapshotIndex, k)
    ensures !CaughtUp(d, to)
  {
    hide Represents, Owned;
    WholeEnds(d.leader, pf);
    WholeEnds(d.follower, ff);
    if |pf| <= |ff| {
      StillDiffers(tl, pf, ff, k, |pf| - 1);
    }
  }

  /** A new leader's follower catches up exactly if it is not stuck. */
  lemma CatchUpIff(tl: map<nat, seq<Entry>>, d: Duo, pf: seq<Entry>, to: nat, ff: seq<Entry>)
    requires Meeting(tl, d, pf, to, ff) && d.leader.nextIndex[to] == d.leader.Last() + 1
    ensures (exists k: nat :: CaughtUpAfter(d, to, k)) <==> !Stuck(d, pf, ff)
  {
    hide Round, Meeting, DiffersAt, CaughtUp, Rounds, Reaches;
    MeetingBasics(tl, d, pf, to, ff);
    if Stuck(d, pf, ff) {
      var k: nat :| DiffersAt(pf, ff, d.follower.snapshotIndex, k);
      DiffersWithin(pf, ff, d.follower.snapshotIndex, k);
      forall m: nat ensures !CaughtUpAfter(d, to, m) {
        NeverCatchesUp(tl, d, pf, to, ff, k, m);
      }
    } else {
      var k, e := BackupConverges(tl, d, pf, to, ff);
      ReachesIsRounds(d, to, k, e);
      assert CaughtUpAfter(d, to, k);
    }
  }

  lemma DiffersWithin(pf: seq<Entry>, ff: seq<Entry>, s: nat, k: nat)
    requires DiffersAt(pf, ff, s, k)
    ensures 0 < k < |pf|
  {
  }

  // ---------------------------------------------------------------- from wherever the leader is

  /** The next probe starts from an entry that both have. */
  predicate Hits(d: Duo, pf: seq<Entry>, to: nat, ff: seq<Entry>)
    requires Paired(d, to)
  {
    var prev := d.leader.nextIndex[to] - 1;
    && d.leader.snapshotIndex <= prev < |pf| && d.follower.snapshotIndex <= prev < |ff|
    && ff[prev].term == pf[prev].term
  }

  /** The follower can be brought up to the leader with probes from within the leader's log. */
  ghost predicate CatchesUpWithin(d: Duo, to: nat) {
    exists k: nat, e :: Reaches(d, to, k, e) && Paired(e, to) && CaughtUp(e, to)
  }

  /** If the next round leads out of the leader's log, it is the last. */
  lemma NoFurther(d: Duo, to: nat)
    requires Paired(d, to) && !CaughtUp(d, to)
    requires Within(d, to) && Round(d, to).Some? ==>
               var e := Round(d, to).value; Paired(e, to) && !CaughtUp(e, to) && !CatchesUpWithin(e, to)
    ensures !CatchesUpWithin(d, to)
  {
    hide Round, CaughtUp, Paired, Within;
    forall k: nat, e | Reaches(d, to, k, e) && Paired(e, to) ensures !CaughtUp(e, to) {
      if k > 0 {
        assert Reaches(Round(d, to).value, to, k - 1, e);
      }
    }
  }

  lemma BeyondIsLast(d: Duo, to: nat)
    requires Paired(d, to) && !CaughtUp(d, to) && !Within(d, to)
    ensures !CatchesUpWithin(d, to)
  {
    NoFurther(d, to);
  }

  /** A probe before the snapshot of a follower with the longer log sends the leader beyond its own. */
  lemma SentBeyond(tl: map<nat, seq<Entry>>, d: Duo, pf: seq<Entry>, to: nat, ff: seq<Entry>)
    requires Meeting(tl, d, pf, to, ff) && !CaughtUp(d, to) && |pf| < |ff|
    requires d.leader.snapshotIndex < d.leader.nextIndex[to] <= d.follower.snapshotIndex
    ensures !CatchesUpWithin(d, to)
  {
    hide Round, Meeting, CatchesUpWithin;
    MeetingBasics(tl, d, pf, to, ff);
    var e, conflict := RefusedRound(tl, d, pf, to, ff);
    MeetingBasics(tl, e, pf, to, ff);
    BeyondIsLast(e, to);
    NoFurther(d, to);
  }

  /** The same after a snapshot that is behind the follower's. */
  lemma SnapshotThenBeyond(tl: map<nat, seq<Entry>>, d: Duo, pf: seq<Entry>, to: nat, ff: seq<Entry>)
    requires Meeting(tl, d, pf, to, ff) && !CaughtUp(d, to) && |pf| < |ff|
    requires d.leader.nextIndex[to] <= d.leader.snapshotIndex < d.follower.snapshotIndex
    ensures !CatchesUpWithin(d, to)
  {
    hide Round, Meeting, CatchesUpWithin;
    MeetingBasics(tl, d, pf, to, ff);
    var e, ff' := SnapshotRound(tl, d, pf, to, ff);
    MeetingBasics(tl, e, pf, to, ff');
    SentBeyond(tl, e, pf, to, ff');
    NoFurther(d, to);
  }

  lemma NoGoodStart(tl: map<nat, seq<Entry>>, d: Duo, pf: seq<Entry>, to: nat, ff: seq<Entry>)
    requires Meeting(tl, d, pf, to, ff) && !CaughtUp(d, to) && !GoodStart(d, pf, to, ff)
    ensures !CatchesUpWithin(d, to)
  {
    hide Meeting, CatchesUpWithin, CaughtUp;
    MeetingBasics(tl, d, pf, to, ff);
    if d.leader.nextIndex[to] > |pf| {
      BeyondIsLast(d, to);
    } else if d.leader.nextIndex[to] <= d.leader.snapshotIndex {
      SnapshotThenBeyond(tl, d, pf, to, ff);
    } else {
      SentBeyond(tl, d, pf, to, ff);
    }
  }

  /** A stuck follower is off the leader's track unless the next probe hits. */
  lemma StuckIsOff(tl: map<nat, seq<Entry>>, d: Duo, pf: seq<Entry>, to: nat, ff: seq<Entry>) returns (k: nat)
    requires Meeting(tl, d, pf, to, ff) && Stuck(d, pf, ff) && !Hits(d, pf, to, ff)
    ensures DiffersAt(pf, ff, d.follower.snapshotIndex, k) && Off(d, to, d.follower.snapshotIndex, k)
  {
    hide Meeting;
    MeetingBasics(tl, d, pf, to, ff);
    var s, prev := d.follower.snapshotIndex, d.leader.nextIndex[to] - 1;
    k :| DiffersAt(pf, ff, s, k);
    if s <= prev < k {
      k := prev;
    }
  }

  /**
   A leader brings a follower up to its log, with probes from within that log
   alone, exactly if it has already done so, or if it starts well and the
   follower is not stuck or is hit by the next probe.
   */
  lemma CatchUpWithinIff(tl: map<nat, seq<Entry>>, d: Duo, pf: seq<Entry>, to: nat, ff: seq<Entry>)
    requires Meeting(tl, d, pf, to, ff)
    ensures CatchesUpWithin(d, to)
       <==> CaughtUp(d, to) || (GoodStart(d, pf, to, ff) && (!Stuck(d, pf, ff) || Hits(d, pf, to, ff)))
  {
    hide Meeting, CaughtUp, Reaches, Stuck, Off, DiffersAt, Round, Rounds;
    MeetingBasics(tl, d, pf, to, ff);
    if CaughtUp(d, to) {
      ReachesSelf(d, to);
    } else if !GoodStart(d, pf, to, ff) {
      NoGoodStart(tl, d, pf, to, ff);
    } else if Hits(d, pf, to, ff) {
      var e := Accepted(tl, d, pf, to, ff);
    } else if Stuck(d, pf, ff) {
      StuckNever(tl, d, pf, to, ff);
    } else {
      var k, e := BackupConverges(tl, d, pf, to, ff);
    }
  }

  lemma StuckNever(tl: map<nat, seq<Entry>>, d: Duo, pf: seq<Entry>, to: nat, ff: seq<Entry>)
    requires Meeting(tl, d, pf, to, ff) && Stuck(d, pf, ff) && !Hits(d, pf, to, ff)
    ensures !CatchesUpWithin(d, to)
  {
    hide Meeting, CaughtUp, Reaches, Off, DiffersAt, Round, Rounds;
    var at := StuckIsOff(tl, d, pf, to, ff);
    forall k: nat, e | Reaches(d, to, k, e) && Paired(e, to) ensures !CaughtUp(e, to) {
      ReachesIsRounds(d, to, k, e);
      NeverCatchesUp(tl, d, pf, to, ff, at, k);
    }
  }
}
