/**
 The safety argument of Raft over uncompacted logs.

 A `Core` is the history a proof keeps beside a running cluster: what every
 server has in its full log, the log of the leader of every term, every ballot
 with the log its voter held at that moment, and every acknowledgement.  A
 critical section of a peer is a sequence of the small actions below; each
 action keeps `CoreInv`, and `CoreInv` alone yields leader completeness.
 */
module RaftCore {
  import opened RaftTypes

  datatype Node = Node(term: nat, votedFor: int, role: Role, log: seq<Entry>, counted: set<nat>)

  /** The one ballot `voter` may cast in `term`. */
  datatype Slot = Slot(term: nat, voter: nat)

  /** A vote for `cand`, with the voter's log when it was cast. */
  datatype Ballot = Ballot(cand: nat, log: seq<Entry>)

  /** `server` once held the first `index` entries of the leader of `term`, while in `term`. */
  datatype Ack = Ack(term: nat, server: nat, index: nat)

  datatype Core = Core(
    nodes: seq<Node>,
    termLog: map<nat, seq<Entry>>,
    leaderOf: map<nat, nat>,
    electors: map<nat, set<nat>>,
    ballots: map<Slot, Ballot>,
    acks: set<Ack>)

  // ---------------------------------------------------------------- logs

  predicate GoodLog(log: seq<Entry>) {
    && |log| > 0
    && log[0] == DUMMY
    && (forall i :: 0 <= i < |log| ==> log[i].globalIndex == i)
    && (forall i, j :: 0 <= i <= j < |log| ==> log[i].term <= log[j].term)
  }

  predicate Bounded(log: seq<Entry>, t: nat) {
    forall i :: 0 <= i < |log| ==> log[i].term <= t
  }

  /** Every prefix of `log` is a prefix of the log of the leader whose term ends it. */
  predicate Owned(tl: map<nat, seq<Entry>>, log: seq<Entry>) {
    forall i :: 0 <= i < |log| ==> log[i].term in tl && Agree(log, tl[log[i].term], i + 1)
  }

  predicate UpToDate(cand: seq<Entry>, voter: seq<Entry>)
    requires |cand| > 0 && |voter| > 0
  {
    var ct, vt := cand[|cand| - 1].term, voter[|voter| - 1].term;
    ct > vt || (ct == vt && |cand| >= |voter|)
  }

  // ---------------------------------------------------------------- invariant

  ghost predicate GoodTermLog(c: Core, t: nat)
    requires t in c.termLog
  {
    GoodLog(c.termLog[t]) && Bounded(c.termLog[t], t) && Owned(c.termLog, c.termLog[t])
  }

  ghost predicate GoodNode(c: Core, i: nat)
    requires i < |c.nodes|
  {
    var p := c.nodes[i];
    GoodLog(p.log) && Bounded(p.log, p.term) && Owned(c.termLog, p.log)
  }

  ghost predicate InvLogs(c: Core) {
    && 0 in c.termLog && c.termLog[0] == [DUMMY]
    && (forall t {:trigger GoodTermLog(c, t)} :: t in c.termLog ==> GoodTermLog(c, t))
    && (forall i {:trigger GoodNode(c, i)} :: 0 <= i < |c.nodes| ==> GoodNode(c, i))
  }

  ghost predicate GoodBallot(c: Core, s: Slot)
    requires s in c.ballots
  {
    var Slot(t, v) := s;
    var b := c.ballots[s];
    && v < |c.nodes| && b.cand < |c.nodes|
    && 0 < t <= c.nodes[v].term
    && (t == c.nodes[v].term ==> c.nodes[v].votedFor == b.cand)
    && GoodLog(b.log) && Owned(c.termLog, b.log)
    && Slot(t, b.cand) in c.ballots
    && var self := c.ballots[Slot(t, b.cand)];
       self.cand == b.cand && GoodLog(self.log) && Bounded(self.log, t - 1) && UpToDate(self.log, b.log)
  }

  ghost predicate InvVotes(c: Core) {
    && (forall s {:trigger GoodBallot(c, s)} :: s in c.ballots ==> GoodBallot(c, s))
    && (forall i :: 0 <= i < |c.nodes| && c.nodes[i].votedFor != -1 ==>
          Slot(c.nodes[i].term, i) in c.ballots)
  }

  ghost predicate VotedFor(c: Core, t: nat, v: nat, cand: nat) {
    Slot(t, v) in c.ballots && c.ballots[Slot(t, v)].cand == cand
  }

  ghost predicate AllVotedFor(c: Core, t: nat, q: set<nat>, cand: nat) {
    forall v :: v in q ==> VotedFor(c, t, v, cand)
  }

  ghost predicate GoodLeader(c: Core, t: nat)
    requires t in c.leaderOf
  {
    var l := c.leaderOf[t];
    && t in c.termLog && t in c.electors
    && Majority(c.electors[t], |c.nodes|)
    && AllVotedFor(c, t, c.electors[t], l)
    && VotedFor(c, t, l, l)
    && var first := c.ballots[Slot(t, l)].log;
       && Agree(first, c.termLog[t], |first|)
       && (forall i :: |first| <= i < |c.termLog[t]| ==> c.termLog[t][i].term == t)
  }

  ghost predicate GoodRole(c: Core, i: nat)
    requires i < |c.nodes|
  {
    var p := c.nodes[i];
    && (p.role == Leader ==>
          && p.term in c.leaderOf && c.leaderOf[p.term] == i
          && p.term in c.termLog && c.termLog[p.term] == p.log)
    && (p.role == Candidate ==>
          && p.votedFor == i
          && (p.term in c.leaderOf ==> c.leaderOf[p.term] != i)
          && Slot(p.term, i) in c.ballots && c.ballots[Slot(p.term, i)].log == p.log
          && AllVotedFor(c, p.term, p.counted, i))
  }

  ghost predicate InvLeaders(c: Core) {
    && (forall t {:trigger GoodLeader(c, t)} :: t in c.leaderOf ==> GoodLeader(c, t))
    && (forall t :: t in c.termLog && t != 0 ==> t in c.leaderOf)
    && c.electors.Keys == c.leaderOf.Keys
    && (forall i {:trigger GoodRole(c, i)} :: 0 <= i < |c.nodes| ==> GoodRole(c, i))
  }

  /** `log` still holds the first `k + 1` entries of the leader of `t`, unless a later leader up to `upto` did not. */
  ghost predicate Kept(tl: map<nat, seq<Entry>>, log: seq<Entry>, t: nat, k: nat, upto: nat)
    requires t in tl
  {
    Agree(log, tl[t], k + 1) || exists u :: Dropped(tl, t, k, u, upto)
  }

  ghost predicate Dropped(tl: map<nat, seq<Entry>>, t: nat, k: nat, u: nat, upto: nat)
    requires t in tl
  {
    u in tl && t < u <= upto && !Agree(tl[t], tl[u], k + 1)
  }

  ghost predicate KeptAll(tl: map<nat, seq<Entry>>, log: seq<Entry>, t: nat, index: nat, upto: nat)
    requires t in tl
  {
    forall k :: 0 <= k <= index ==> Kept(tl, log, t, k, upto)
  }

  ghost predicate GoodAck(c: Core, a: Ack) {
    && a.server < |c.nodes| && a.term in c.termLog
    && a.index < |c.termLog[a.term]|
    && a.term <= c.nodes[a.server].term
    && KeptAll(c.termLog, c.nodes[a.server].log, a.term, a.index, c.nodes[a.server].term)
  }

  /** What an acknowledgement means for a ballot its server cast in a later term. */
  ghost predicate KeptInBallot(c: Core, a: Ack, s: Slot)
    requires s in c.ballots
  {
    a.server == s.voter && a.term < s.term ==>
      a.term in c.termLog && KeptAll(c.termLog, c.ballots[s].log, a.term, a.index, s.term)
  }

  /** The same for a ballot that elected the leader of `t`: only leaders before `t` can have dropped the entry. */
  ghost predicate KeptByElector(c: Core, a: Ack, t: nat)
    requires t in c.electors
  {
    a.server in c.electors[t] && a.term < t ==>
      && a.term in c.termLog
      && Slot(t, a.server) in c.ballots
      && KeptAll(c.termLog, c.ballots[Slot(t, a.server)].log, a.term, a.index, t - 1)
  }

  ghost predicate InvAcks(c: Core) {
    && (forall a {:trigger GoodAck(c, a)} :: a in c.acks ==> GoodAck(c, a))
    && (forall a, s {:trigger KeptInBallot(c, a, s)} :: a in c.acks && s in c.ballots ==> KeptInBallot(c, a, s))
    && (forall a, t {:trigger KeptByElector(c, a, t)} :: a in c.acks && t in c.electors ==> KeptByElector(c, a, t))
  }

  ghost predicate CoreInv(c: Core) {
    InvLogs(c) && InvVotes(c) && InvLeaders(c) && InvAcks(c)
  }

  /** What never changes once recorded. */
  ghost predicate Extends(c: Core, d: Core) {
    && |c.nodes| == |d.nodes|
    && c.acks <= d.acks
    && (forall t :: t in c.termLog ==>
          t in d.termLog && Agree(c.termLog[t], d.termLog[t], |c.termLog[t]|))
    && (forall b :: b in c.ballots ==> b in d.ballots && d.ballots[b] == c.ballots[b])
    && (forall t :: t in c.leaderOf ==> t in d.leaderOf && d.leaderOf[t] == c.leaderOf[t])
  }

  // ---------------------------------------------------------------- log matching

  lemma LogMatching(tl: map<nat, seq<Entry>>, a: seq<Entry>, b: seq<Entry>, k: nat)
    requires Owned(tl, a) && Owned(tl, b)
    requires k < |a| && k < |b| && a[k].term == b[k].term
    ensures Agree(a, b, k + 1)
  {
    assert Agree(a, tl[a[k].term], k + 1);
    assert Agree(b, tl[b[k].term], k + 1);
  }

  // ---------------------------------------------------------------- leader completeness

  ghost predicate AckedTo(c: Core, t: nat, v: nat, n: nat) {
    exists k :: n <= k && Ack(t, v, k) in c.acks
  }

  ghost predicate AckQuorum(c: Core, t: nat, n: nat, q: set<nat>) {
    Majority(q, |c.nodes|) && forall v :: v in q ==> AckedTo(c, t, v, n)
  }

  /** A majority acknowledged index `n` to the leader of `t`, whose entry there is of its own term. */
  ghost predicate Chosen(c: Core, t: nat, n: nat) {
    && t in c.termLog && n < |c.termLog[t]| && c.termLog[t][n].term == t
    && exists q :: AckQuorum(c, t, n, q)
  }

  /** Whoever is at least as up to date as a log holding a chosen entry holds it too. */
  lemma UpToDateHolds(c: Core, t: nat, n: nat, u: nat, voter: seq<Entry>, cand: seq<Entry>)
    requires InvLogs(c) && t in c.termLog && n < |c.termLog[t]| && c.termLog[t][n].term == t
    requires GoodLog(voter) && Owned(c.termLog, voter) && Agree(voter, c.termLog[t], n + 1)
    requires GoodLog(cand) && Owned(c.termLog, cand) && t < u && Bounded(cand, u - 1)
    requires UpToDate(cand, voter)
    requires forall w :: w in c.termLog && t < w < u ==> Agree(c.termLog[t], c.termLog[w], n + 1)
    ensures Agree(cand, c.termLog[t], n + 1)
  {
    var cl, vl := |cand| - 1, |voter| - 1;
    assert GoodTermLog(c, t);
    assert voter[n].term == t && voter[n].term <= voter[vl].term;
    var w := cand[cl].term;
    assert Agree(cand, c.termLog[w], cl + 1);
    assert GoodTermLog(c, w);
    if w == voter[vl].term {
      assert Agree(voter, c.termLog[w], vl + 1);
    } else {
      assert Agree(c.termLog[t], c.termLog[w], n + 1);
      assert c.termLog[w][n].term == t;
    }
  }

  /** Some server acknowledged a chosen entry and later helped elect the leader of `u`. */
  lemma SharedVoter(c: Core, t: nat, n: nat, u: nat) returns (v: nat)
    requires InvLeaders(c) && InvAcks(c) && Chosen(c, t, n)
    requires u in c.leaderOf && t < u
    ensures VotedFor(c, u, v, c.leaderOf[u]) && VotedFor(c, u, c.leaderOf[u], c.leaderOf[u])
    ensures Kept(c.termLog, c.ballots[Slot(u, v)].log, t, n, u - 1)
  {
    var q :| AckQuorum(c, t, n, q);
    assert GoodLeader(c, u);
    v := QuorumsMeet(q, c.electors[u], |c.nodes|);
    assert AckedTo(c, t, v, n);
    var k :| n <= k && Ack(t, v, k) in c.acks;
    assert KeptByElector(c, Ack(t, v, k), u);
  }

  /** Every later leader holds every chosen entry, and all before it. */
  lemma {:induction false} LeaderCompleteness(c: Core, t: nat, n: nat, u: nat)
    requires CoreInv(c) && Chosen(c, t, n)
    requires u in c.termLog && t < u
    ensures Agree(c.termLog[t], c.termLog[u], n + 1)
    decreases u
  {
    forall w | w in c.termLog && t < w < u
      ensures Agree(c.termLog[t], c.termLog[w], n + 1)
    {
      LeaderCompleteness(c, t, n, w);
    }
    var v := SharedVoter(c, t, n, u);
    LeaderHolds(c, t, n, u, v);
  }

  lemma LeaderHolds(c: Core, t: nat, n: nat, u: nat, v: nat)
    requires InvLogs(c) && InvVotes(c) && u in c.leaderOf && GoodLeader(c, u) && t < u
    requires t in c.termLog && n < |c.termLog[t]| && c.termLog[t][n].term == t
    requires VotedFor(c, u, v, c.leaderOf[u])
    requires Kept(c.termLog, c.ballots[Slot(u, v)].log, t, n, u - 1)
    requires forall w :: w in c.termLog && t < w < u ==> Agree(c.termLog[t], c.termLog[w], n + 1)
    ensures Agree(c.termLog[t], c.termLog[u], n + 1)
  {
    var l := c.leaderOf[u];
    assert GoodBallot(c, Slot(u, v));
    assert GoodBallot(c, Slot(u, l));
    UpToDateHolds(c, t, n, u, c.ballots[Slot(u, v)].log, c.ballots[Slot(u, l)].log);
  }

  // ---------------------------------------------------------------- actions

  function SetNode(c: Core, i: nat, p: Node): Core
    requires i < |c.nodes|
  {
    c.(nodes := c.nodes[i := p])
  }

  /** Server `i` learns of a later term. */
  function Adopt(c: Core, i: nat, t: nat): Core
    requires i < |c.nodes|
  {
    SetNode(c, i, c.nodes[i].(term := t, votedFor := -1, role := Follower))
  }

  /** Server `i` stops campaigning or leading, or restarts from disk. */
  function StepDown(c: Core, i: nat): Core
    requires i < |c.nodes|
  {
    SetNode(c, i, c.nodes[i].(role := Follower))
  }

  /** Server `i` starts an election and votes for itself. */
  function Campaign(c: Core, i: nat): Core
    requires i < |c.nodes|
  {
    var p := c.nodes[i];
    SetNode(c, i, p.(term := p.term + 1, votedFor := i, role := Candidate, counted := {i}))
      .(ballots := c.ballots[Slot(p.term + 1, i) := Ballot(i, p.log)])
  }

  /** Server `i`, which has not voted in its term, votes for `cand`. */
  function Grant(c: Core, i: nat, cand: nat): Core
    requires i < |c.nodes|
  {
    var p := c.nodes[i];
    SetNode(c, i, p.(votedFor := cand)).(ballots := c.ballots[Slot(p.term, i) := Ballot(cand, p.log)])
  }

  /** Candidate `i` counts the vote of `v`. */
  function CountVote(c: Core, i: nat, v: nat): Core
    requires i < |c.nodes|
  {
    SetNode(c, i, c.nodes[i].(counted := c.nodes[i].counted + {v}))
  }

  /** Candidate `i`, holding a majority, becomes leader. */
  function Win(c: Core, i: nat): Core
    requires i < |c.nodes| && |c.nodes[i].log| > 0
  {
    var p := c.nodes[i];
    SetNode(c, i, p.(role := Leader)).(
      termLog := c.termLog[p.term := p.log],
      leaderOf := c.leaderOf[p.term := i],
      electors := c.electors[p.term := p.counted],
      acks := c.acks + {Ack(p.term, i, |p.log| - 1)})
  }

  /** Leader `i` appends `e` to its own log. */
  function AppendOwn(c: Core, i: nat, e: Entry): Core
    requires i < |c.nodes|
  {
    var p := c.nodes[i];
    SetNode(c, i, p.(log := p.log + [e])).(
      termLog := c.termLog[p.term := p.log + [e]],
      acks := c.acks + {Ack(p.term, i, |p.log|)})
  }

  /** Server `i` takes over the first `k + 1` entries of the leader of its term and acknowledges them. */
  function Accept(c: Core, i: nat, k: nat): Core
    requires i < |c.nodes| && c.nodes[i].term in c.termLog && k < |c.termLog[c.nodes[i].term]|
  {
    var p := c.nodes[i];
    var l := c.termLog[p.term];
    SetNode(c, i, p.(log := if Agree(p.log, l, k + 1) then p.log else l[..k + 1])).(
      acks := c.acks + {Ack(p.term, i, k)})
  }

  // ---------------------------------------------------------------- frames

  /** Only server `i` changed; histories grew. */
  ghost predicate Moves(c: Core, d: Core, i: nat) {
    && Extends(c, d) && i < |c.nodes|
    && (forall j :: 0 <= j < |c.nodes| && j != i ==> d.nodes[j] == c.nodes[j])
    && c.nodes[i].term <= d.nodes[i].term
    && (forall t :: t in c.electors ==> t in d.electors && d.electors[t] == c.electors[t])
    && (forall t, k :: t in c.termLog && |c.termLog[t]| <= k < |d.termLog[t]| ==> d.termLog[t][k].term == t)
  }

  lemma OwnedGrows(c: Core, d: Core, log: seq<Entry>)
    requires Extends(c, d) && Owned(c.termLog, log)
    ensures Owned(d.termLog, log)
  {
    forall i | 0 <= i < |log| ensures log[i].term in d.termLog && Agree(log, d.termLog[log[i].term], i + 1) {
      assert Agree(log, c.termLog[log[i].term], i + 1);
    }
  }

  lemma KeptGrows(c: Core, d: Core, i: nat, log: seq<Entry>, t: nat, index: nat, upto: nat, upto': nat)
    requires InvLogs(c) && Moves(c, d, i) && t in c.termLog && index < |c.termLog[t]| && upto <= upto'
    requires KeptAll(c.termLog, log, t, index, upto)
    ensures KeptAll(d.termLog, log, t, index, upto')
  {
    forall k | 0 <= k <= index ensures Kept(d.termLog, log, t, k, upto') {
      assert Kept(c.termLog, log, t, k, upto);
      if !Agree(log, c.termLog[t], k + 1) {
        var u :| Dropped(c.termLog, t, k, u, upto);
        DroppedGrows(c, d, i, t, k, u, upto);
        assert Dropped(d.termLog, t, k, u, upto');
      }
    }
  }

  lemma DroppedGrows(c: Core, d: Core, i: nat, t: nat, k: nat, u: nat, upto: nat)
    requires InvLogs(c) && Moves(c, d, i) && t in c.termLog && k < |c.termLog[t]|
    requires Dropped(c.termLog, t, k, u, upto)
    ensures Dropped(d.termLog, t, k, u, upto)
  {
    var a, b := c.termLog[t], c.termLog[u];
    assert GoodTermLog(c, t);
    assert Bounded(a, t);
    if |b| <= k && |d.termLog[u]| > k {
      assert d.termLog[u][|b|].term == u;
      assert d.termLog[t][|b|] == a[|b|];
    }
  }

  lemma LogsFrame(c: Core, d: Core, i: nat)
    requires InvLogs(c) && Moves(c, d, i)
    requires GoodNode(d, i)
    requires forall t :: t in d.termLog ==>
      (t in c.termLog && d.termLog[t] == c.termLog[t]) || (0 < t == d.nodes[i].term && d.termLog[t] == d.nodes[i].log)
    ensures InvLogs(d)
  {
    forall t | t in d.termLog
      ensures GoodTermLog(d, t)
    {
      if t in c.termLog && d.termLog[t] == c.termLog[t] {
        assert GoodTermLog(c, t);
        OwnedGrows(c, d, c.termLog[t]);
      }
    }
    forall j | 0 <= j < |d.nodes|
      ensures GoodNode(d, j)
    {
      if j != i {
        assert GoodNode(c, j);
        OwnedGrows(c, d, c.nodes[j].log);
      }
    }
  }

  lemma VotesFrame(c: Core, d: Core, i: nat)
    requires InvVotes(c) && Moves(c, d, i)
    requires d.ballots.Keys <= c.ballots.Keys + {Slot(d.nodes[i].term, i)}
    requires Slot(d.nodes[i].term, i) in d.ballots ==> GoodBallot(d, Slot(d.nodes[i].term, i))
    requires d.nodes[i].term == c.nodes[i].term ==> c.nodes[i].votedFor in {-1, d.nodes[i].votedFor}
    requires d.nodes[i].votedFor != -1 ==> Slot(d.nodes[i].term, i) in d.ballots
    ensures InvVotes(d)
  {
    forall s | s in d.ballots ensures GoodBallot(d, s) {
      if s in c.ballots {
        assert GoodBallot(c, s);
        BallotKept(c, d, i, s);
      }
    }
  }

  lemma BallotKept(c: Core, d: Core, i: nat, s: Slot)
    requires Moves(c, d, i) && s in c.ballots && GoodBallot(c, s)
    requires d.nodes[i].term == c.nodes[i].term ==> c.nodes[i].votedFor in {-1, d.nodes[i].votedFor}
    ensures GoodBallot(d, s)
  {
    OwnedGrows(c, d, c.ballots[s].log);
  }

  lemma LeadersFrame(c: Core, d: Core, i: nat)
    requires InvLeaders(c) && Moves(c, d, i)
    requires d.leaderOf == c.leaderOf && d.electors == c.electors && GoodRole(d, i)
    requires forall t :: t in d.termLog ==> t in c.termLog
    requires forall j :: 0 <= j < |c.nodes| && j != i && c.nodes[j].role == Leader && c.nodes[j].term in d.termLog ==>
      d.termLog[c.nodes[j].term] == c.termLog[c.nodes[j].term]
    ensures InvLeaders(d)
  {
    forall t | t in d.leaderOf ensures GoodLeader(d, t) {
      assert GoodLeader(c, t);
      assert AllVotedFor(d, t, c.electors[t], c.leaderOf[t]);
    }
    forall j | 0 <= j < |d.nodes| ensures GoodRole(d, j) {
      if j != i {
        assert GoodRole(c, j);
        if c.nodes[j].role == Candidate {
          assert AllVotedFor(d, c.nodes[j].term, c.nodes[j].counted, j);
        }
      }
    }
  }

  lemma AcksFrame(c: Core, d: Core, i: nat)
    requires InvLogs(c) && InvAcks(c) && Moves(c, d, i) && d.nodes[i].log == c.nodes[i].log
    requires d.acks == c.acks && d.ballots == c.ballots && d.electors == c.electors
    ensures InvAcks(d)
  {
    forall a | a in d.acks ensures GoodAck(d, a) {
      assert GoodAck(c, a);
      AckFrame(c, d, i, a);
    }
    forall a, s | a in d.acks && s in d.ballots ensures KeptInBallot(d, a, s) {
      assert GoodAck(c, a) && KeptInBallot(c, a, s);
      BallotFrame(c, d, i, a, s);
    }
    forall a, t | a in d.acks && t in d.electors ensures KeptByElector(d, a, t) {
      assert GoodAck(c, a) && KeptByElector(c, a, t);
      ElectorFrame(c, d, i, a, t);
    }
  }

  lemma AckFrame(c: Core, d: Core, i: nat, a: Ack)
    requires InvLogs(c) && Moves(c, d, i) && GoodAck(c, a)
    requires a.server == i ==> d.nodes[i].log == c.nodes[i].log
    ensures GoodAck(d, a)
  {
    var p := c.nodes[a.server];
    KeptGrows(c, d, i, p.log, a.term, a.index, p.term, d.nodes[a.server].term);
  }

  lemma BallotFrame(c: Core, d: Core, i: nat, a: Ack, s: Slot)
    requires InvLogs(c) && Moves(c, d, i) && GoodAck(c, a) && s in c.ballots && KeptInBallot(c, a, s)
    ensures KeptInBallot(d, a, s)
  {
    if a.server == s.voter && a.term < s.term {
      KeptGrows(c, d, i, c.ballots[s].log, a.term, a.index, s.term, s.term);
    }
  }

  lemma ElectorFrame(c: Core, d: Core, i: nat, a: Ack, t: nat)
    requires InvLogs(c) && Moves(c, d, i) && GoodAck(c, a) && t in c.electors && KeptByElector(c, a, t)
    ensures KeptByElector(d, a, t)
  {
    if a.server in c.electors[t] && a.term < t {
      KeptGrows(c, d, i, c.ballots[Slot(t, a.server)].log, a.term, a.index, t - 1, t - 1);
    }
  }

  // ---------------------------------------------------------------- actions keep the invariant

  lemma AdoptKeeps(c: Core, i: nat, t: nat)
    requires CoreInv(c) && i < |c.nodes| && c.nodes[i].term < t
    ensures CoreInv(Adopt(c, i, t)) && Extends(c, Adopt(c, i, t))
  {
    var d := Adopt(c, i, t);
    assert GoodNode(c, i);
    LogsFrame(c, d, i);
    assert Slot(t, i) in c.ballots ==> GoodBallot(c, Slot(t, i));
    VotesFrame(c, d, i);
    LeadersFrame(c, d, i);
    AcksFrame(c, d, i);
  }

  lemma StepDownKeeps(c: Core, i: nat)
    requires CoreInv(c) && i < |c.nodes|
    ensures CoreInv(StepDown(c, i)) && Extends(c, StepDown(c, i))
  {
    var d := StepDown(c, i);
    var s := Slot(c.nodes[i].term, i);
    assert GoodNode(c, i);
    LogsFrame(c, d, i);
    assert s in c.ballots ==> GoodBallot(c, s);
    if s in c.ballots {
      BallotKept(c, d, i, s);
    }
    VotesFrame(c, d, i);
    LeadersFrame(c, d, i);
    AcksFrame(c, d, i);
  }

  lemma CampaignKeeps(c: Core, i: nat)
    requires CoreInv(c) && i < |c.nodes|
    ensures CoreInv(Campaign(c, i)) && Extends(c, Campaign(c, i))
  {
    hide Owned, GoodLog, GoodAck;
    var d := Campaign(c, i);
    var p := c.nodes[i];
    var s := Slot(p.term + 1, i);
    assert GoodNode(c, i);
    assert s in c.ballots ==> GoodBallot(c, s);
    LogsFrame(c, d, i);
    assert GoodBallot(d, s);
    VotesFrame(c, d, i);
    assert p.term + 1 in c.leaderOf ==> GoodLeader(c, p.term + 1);
    assert VotedFor(d, p.term + 1, i, i);
    assert GoodRole(d, i);
    LeadersFrame(c, d, i);
    BallotAcks(c, d, i);
  }

  /** A ballot cast now keeps what its voter acknowledged in earlier terms. */
  lemma BallotAcks(c: Core, d: Core, i: nat)
    requires InvLogs(c) && InvAcks(c) && Moves(c, d, i) && d.nodes[i].log == c.nodes[i].log
    requires d.acks == c.acks && d.electors == c.electors
    requires var s := Slot(d.nodes[i].term, i);
      s !in c.ballots && d.ballots.Keys == c.ballots.Keys + {s} && d.ballots[s].log == c.nodes[i].log
    ensures InvAcks(d)
  {
    forall a | a in d.acks ensures GoodAck(d, a) {
      assert GoodAck(c, a);
      AckFrame(c, d, i, a);
    }
    forall a, s | a in d.acks && s in d.ballots ensures KeptInBallot(d, a, s) {
      assert GoodAck(c, a);
      if s in c.ballots {
        assert KeptInBallot(c, a, s);
        BallotFrame(c, d, i, a, s);
      } else {
        AckFrame(c, d, i, a);
      }
    }
    forall a, t | a in d.acks && t in d.electors ensures KeptByElector(d, a, t) {
      assert GoodAck(c, a) && KeptByElector(c, a, t);
      ElectorFrame(c, d, i, a, t);
    }
  }

  lemma GrantKeeps(c: Core, i: nat, cand: nat)
    requires CoreInv(c) && i < |c.nodes| && c.nodes[i].votedFor == -1
    requires VotedFor(c, c.nodes[i].term, cand, cand)
    requires |c.ballots[Slot(c.nodes[i].term, cand)].log| > 0 && |c.nodes[i].log| > 0
    requires UpToDate(c.ballots[Slot(c.nodes[i].term, cand)].log, c.nodes[i].log)
    ensures CoreInv(Grant(c, i, cand)) && Extends(c, Grant(c, i, cand))
  {
    hide Owned, Bounded, GoodLog, GoodAck;
    var d := Grant(c, i, cand);
    var s := Slot(c.nodes[i].term, i);
    assert GoodNode(c, i);
    assert s in c.ballots ==> GoodBallot(c, s);
    assert s !in c.ballots;
    assert GoodBallot(c, Slot(c.nodes[i].term, cand));
    LogsFrame(c, d, i);
    assert GoodBallot(d, s);
    VotesFrame(c, d, i);
    assert GoodRole(c, i);
    LeadersFrame(c, d, i);
    BallotAcks(c, d, i);
  }

  lemma CountVoteKeeps(c: Core, i: nat, v: nat)
    requires CoreInv(c) && i < |c.nodes| && c.nodes[i].role == Candidate
    requires VotedFor(c, c.nodes[i].term, v, i)
    ensures CoreInv(CountVote(c, i, v)) && Extends(c, CountVote(c, i, v))
  {
    hide Owned, Bounded, GoodLog, GoodAck;
    var d := CountVote(c, i, v);
    var s := Slot(c.nodes[i].term, i);
    assert GoodNode(c, i);
    LogsFrame(c, d, i);
    assert s in c.ballots ==> GoodBallot(c, s);
    if s in c.ballots {
      BallotKept(c, d, i, s);
    }
    VotesFrame(c, d, i);
    assert GoodRole(c, i);
    LeadersFrame(c, d, i);
    AcksFrame(c, d, i);
  }

  /** Two candidates never both collect a majority in one term. */
  lemma ElectionSafety(c: Core, i: nat)
    requires CoreInv(c) && i < |c.nodes| && c.nodes[i].role == Candidate
    requires Majority(c.nodes[i].counted, |c.nodes|)
    ensures c.nodes[i].term !in c.leaderOf
  {
    var t := c.nodes[i].term;
    if t in c.leaderOf {
      assert GoodRole(c, i) && GoodLeader(c, t);
      var v := QuorumsMeet(c.nodes[i].counted, c.electors[t], |c.nodes|);
      assert false;
    }
  }

  lemma WinKeeps(c: Core, i: nat)
    requires CoreInv(c) && i < |c.nodes| && c.nodes[i].role == Candidate && |c.nodes[i].log| > 0
    requires Majority(c.nodes[i].counted, |c.nodes|)
    ensures CoreInv(Win(c, i)) && Extends(c, Win(c, i))
  {
    ElectionSafety(c, i);
    var d := Win(c, i);
    var p := c.nodes[i];
    var s := Slot(p.term, i);
    assert GoodNode(c, i) && GoodRole(c, i);
    assert GoodBallot(c, s);
    assert p.term !in c.termLog;
    OwnedGrows(c, d, p.log);
    LogsFrame(c, d, i);
    BallotKept(c, d, i, s);
    VotesFrame(c, d, i);
    WinLeaders(c, d, i);
    WinAcks(c, d, i);
  }

  lemma WinLeaders(c: Core, d: Core, i: nat)
    requires CoreInv(c) && i < |c.nodes| && c.nodes[i].role == Candidate && |c.nodes[i].log| > 0
    requires Majority(c.nodes[i].counted, |c.nodes|)
    requires c.nodes[i].term !in c.leaderOf && c.nodes[i].term !in c.termLog
    requires d == Win(c, i) && Moves(c, d, i)
    ensures InvLeaders(d)
  {
    var p := c.nodes[i];
    assert GoodRole(c, i) && GoodBallot(c, Slot(p.term, i));
    forall t | t in d.leaderOf ensures GoodLeader(d, t) {
      if t == p.term {
        assert AllVotedFor(d, t, p.counted, i);
      } else {
        assert GoodLeader(c, t);
        assert AllVotedFor(d, t, c.electors[t], c.leaderOf[t]);
      }
    }
    forall j | 0 <= j < |d.nodes| ensures GoodRole(d, j) {
      assert GoodRole(c, j);
      if j != i && c.nodes[j].role == Candidate {
        assert AllVotedFor(d, c.nodes[j].term, c.nodes[j].counted, j);
      }
    }
  }

  lemma WinAcks(c: Core, d: Core, i: nat)
    requires CoreInv(c) && i < |c.nodes| && c.nodes[i].role == Candidate && |c.nodes[i].log| > 0
    requires c.nodes[i].term !in c.leaderOf && c.nodes[i].term !in c.termLog
    requires d == Win(c, i) && Moves(c, d, i)
    ensures InvAcks(d)
  {
    var p := c.nodes[i];
    forall a | a in d.acks ensures GoodAck(d, a) {
      if a in c.acks {
        assert GoodAck(c, a);
        AckFrame(c, d, i, a);
      } else {
        FullyKept(d.termLog, p.log, a.term, a.index, p.term);
      }
    }
    forall a, s | a in d.acks && s in d.ballots ensures KeptInBallot(d, a, s) {
      if a in c.acks {
        assert GoodAck(c, a) && KeptInBallot(c, a, s);
        BallotFrame(c, d, i, a, s);
      } else {
        assert GoodBallot(c, s);
      }
    }
    forall a, t | a in d.acks && t in d.electors ensures KeptByElector(d, a, t) {
      if t == p.term {
        WinElectors(c, d, i, a);
      } else {
        OldElectors(c, d, i, a, t);
      }
    }
  }

  lemma FullyKept(tl: map<nat, seq<Entry>>, log: seq<Entry>, t: nat, index: nat, upto: nat)
    requires t in tl && Agree(log, tl[t], index + 1)
    ensures KeptAll(tl, log, t, index, upto)
  {
    forall k | 0 <= k <= index ensures Kept(tl, log, t, k, upto) {
      assert Agree(log, tl[t], k + 1);
    }
  }

  /** The voters of a leader just elected voted before there was a leader of their term. */
  lemma WinElectors(c: Core, d: Core, i: nat, a: Ack)
    requires InvLogs(c) && InvVotes(c) && InvAcks(c) && i < |c.nodes| && |c.nodes[i].log| > 0
    requires c.nodes[i].role == Candidate && GoodRole(c, i)
    requires c.nodes[i].term !in c.termLog && d == Win(c, i) && Moves(c, d, i) && a in d.acks
    ensures KeptByElector(d, a, c.nodes[i].term)
  {
    var p := c.nodes[i];
    if a.server in p.counted && a.term < p.term {
      var s := Slot(p.term, a.server);
      assert VotedFor(c, p.term, a.server, i);
      assert GoodAck(c, a) && KeptInBallot(c, a, s);
      var b := c.ballots[s].log;
      assert p.term > 0 by { assert GoodBallot(c, s); }
      var last := p.term - 1;
      forall k | 0 <= k <= a.index ensures Kept(c.termLog, b, a.term, k, last) {
        assert Kept(c.termLog, b, a.term, k, p.term);
        if !Agree(b, c.termLog[a.term], k + 1) {
          var u :| Dropped(c.termLog, a.term, k, u, p.term);
          assert Dropped(c.termLog, a.term, k, u, last);
        }
      }
      KeptGrows(c, d, i, b, a.term, a.index, last, last);
    }
  }

  /** An acknowledgement of server `i` in its current term says nothing about elections of later terms. */
  lemma OldElectors(c: Core, d: Core, i: nat, a: Ack, t: nat)
    requires CoreInv(c) && Moves(c, d, i) && t in c.electors
    requires a in c.acks || (a.server == i && a.term == c.nodes[i].term)
    ensures KeptByElector(d, a, t)
  {
    if a in c.acks {
      assert GoodAck(c, a) && KeptByElector(c, a, t);
      ElectorFrame(c, d, i, a, t);
    } else {
      assert GoodLeader(c, t);
      if a.server in c.electors[t] {
        assert VotedFor(c, t, i, c.leaderOf[t]);
        assert GoodBallot(c, Slot(t, i));
      }
    }
  }

  /** One new acknowledgement by server `i`, in its current term, of entries it now holds. */
  lemma NewAck(c: Core, d: Core, i: nat, b: Ack)
    requires CoreInv(c) && Moves(c, d, i) && d.ballots == c.ballots && d.electors == c.electors
    requires d.nodes[i].term == c.nodes[i].term == b.term && b.server == i
    requires d.acks == c.acks + {b} && GoodAck(d, b)
    requires forall a :: a in c.acks && a.server == i && GoodAck(c, a) ==> GoodAck(d, a)
    ensures InvAcks(d)
  {
    forall a | a in d.acks ensures GoodAck(d, a) {
      if a in c.acks {
        assert GoodAck(c, a);
        if a.server != i {
          AckFrame(c, d, i, a);
        }
      }
    }
    forall a, s | a in d.acks && s in d.ballots ensures KeptInBallot(d, a, s) {
      if a in c.acks {
        assert GoodAck(c, a) && KeptInBallot(c, a, s);
        BallotFrame(c, d, i, a, s);
      } else {
        assert GoodBallot(c, s);
      }
    }
    forall a, t | a in d.acks && t in d.electors ensures KeptByElector(d, a, t) {
      OldElectors(c, d, i, a, t);
    }
  }

  lemma AppendOwnKeeps(c: Core, i: nat, e: Entry)
    requires CoreInv(c) && i < |c.nodes| && c.nodes[i].role == Leader
    requires e.term == c.nodes[i].term && e.globalIndex == |c.nodes[i].log|
    ensures CoreInv(AppendOwn(c, i, e)) && Extends(c, AppendOwn(c, i, e))
  {
    var d := AppendOwn(c, i, e);
    var p := c.nodes[i];
    AppendOwnLogs(c, i, e);
    var s := Slot(p.term, i);
    assert GoodRole(c, i) && GoodLeader(c, p.term) && GoodBallot(c, s);
    BallotKept(c, d, i, s);
    VotesFrame(c, d, i);
    forall j | 0 <= j < |c.nodes| && j != i && c.nodes[j].role == Leader ensures c.nodes[j].term != p.term {
      assert GoodRole(c, j);
    }
    LeadersFrame(c, d, i);
    AppendOwnAcks(c, d, i, e);
  }

  lemma OwnedAppends(c: Core, d: Core, log: seq<Entry>, e: Entry)
    requires Extends(c, d) && Owned(c.termLog, log) && e.term in d.termLog && d.termLog[e.term] == log + [e]
    ensures Owned(d.termLog, log + [e])
  {
    OwnedGrows(c, d, log);
    var longer := log + [e];
    forall k | 0 <= k < |longer|
      ensures longer[k].term in d.termLog && Agree(longer, d.termLog[longer[k].term], k + 1)
    {
      if k < |log| {
        assert Agree(log, d.termLog[log[k].term], k + 1);
      }
    }
  }

  lemma LeaderBasics(c: Core, i: nat)
    requires CoreInv(c) && i < |c.nodes| && c.nodes[i].role == Leader
    ensures var p := c.nodes[i];
            && p.term > 0 && p.term in c.leaderOf && c.leaderOf[p.term] == i && p.term in c.termLog
            && c.termLog[p.term] == p.log
  {
    hide InvLogs, InvAcks;
    var p := c.nodes[i];
    assert GoodRole(c, i) && GoodLeader(c, p.term);
    assert GoodBallot(c, Slot(p.term, i));
  }

  lemma AppendOwnLogs(c: Core, i: nat, e: Entry)
    requires CoreInv(c) && i < |c.nodes| && c.nodes[i].role == Leader
    requires e.term == c.nodes[i].term && e.globalIndex == |c.nodes[i].log|
    ensures Moves(c, AppendOwn(c, i, e), i) && InvLogs(AppendOwn(c, i, e))
  {
    hide InvAcks, InvVotes, InvLeaders;
    var d := AppendOwn(c, i, e);
    var p := c.nodes[i];
    LeaderBasics(c, i);
    assert GoodNode(c, i);
    OwnedAppends(c, d, p.log, e);
    LogsFrame(c, d, i);
  }

  lemma AppendOwnAcks(c: Core, d: Core, i: nat, e: Entry)
    requires CoreInv(c) && i < |c.nodes| && c.nodes[i].role == Leader
    requires d == AppendOwn(c, i, e) && Moves(c, d, i)
    ensures InvAcks(d)
  {
    var p, q := c.nodes[i], d.nodes[i];
    FullyKept(d.termLog, q.log, p.term, |p.log|, p.term);
    forall a | a in c.acks && a.server == i && GoodAck(c, a) ensures GoodAck(d, a) {
      LongerKeeps(c, d, i, a);
    }
    NewAck(c, d, i, Ack(p.term, i, |p.log|));
  }

  lemma LongerKeeps(c: Core, d: Core, i: nat, a: Ack)
    requires InvLogs(c) && Moves(c, d, i) && GoodAck(c, a) && a.server == i
    requires Agree(c.nodes[i].log, d.nodes[i].log, |c.nodes[i].log|)
    ensures GoodAck(d, a)
  {
    var p, q := c.nodes[i], d.nodes[i];
    KeptGrows(c, d, i, p.log, a.term, a.index, p.term, q.term);
    forall k | 0 <= k <= a.index ensures Kept(d.termLog, q.log, a.term, k, q.term) {
      assert Kept(d.termLog, p.log, a.term, k, q.term);
    }
  }

  lemma AcceptKeeps(c: Core, i: nat, k: nat)
    requires CoreInv(c) && i < |c.nodes| && c.nodes[i].role == Follower
    requires c.nodes[i].term in c.termLog && k < |c.termLog[c.nodes[i].term]|
    ensures CoreInv(Accept(c, i, k)) && Extends(c, Accept(c, i, k))
    ensures Agree(Accept(c, i, k).nodes[i].log, c.termLog[c.nodes[i].term], k + 1)
  {
    hide InvLogs, InvVotes, InvLeaders, InvAcks;
    var d := Accept(c, i, k);
    AcceptLogs(c, i, k);
    AcceptVotes(c, d, i);
    AcceptLeaders(c, d, i);
    AcceptAcks(c, d, i, k);
  }

  lemma AcceptLogs(c: Core, i: nat, k: nat)
    requires InvLogs(c) && i < |c.nodes|
    requires c.nodes[i].term in c.termLog && k < |c.termLog[c.nodes[i].term]|
    ensures Moves(c, Accept(c, i, k), i) && InvLogs(Accept(c, i, k))
  {
    assert GoodNode(c, i) && GoodTermLog(c, c.nodes[i].term);
    LogsFrame(c, Accept(c, i, k), i);
  }

  lemma AcceptVotes(c: Core, d: Core, i: nat)
    requires InvVotes(c) && Moves(c, d, i) && d.ballots == c.ballots
    requires d.nodes[i].term == c.nodes[i].term && d.nodes[i].votedFor == c.nodes[i].votedFor
    ensures InvVotes(d)
  {
    var s := Slot(c.nodes[i].term, i);
    if s in c.ballots {
      assert GoodBallot(c, s);
      BallotKept(c, d, i, s);
    }
    VotesFrame(c, d, i);
  }

  lemma AcceptLeaders(c: Core, d: Core, i: nat)
    requires InvLeaders(c) && Moves(c, d, i) && d.leaderOf == c.leaderOf && d.electors == c.electors
    requires d.termLog == c.termLog
    requires d.nodes[i].role == Follower
    ensures InvLeaders(d)
  {
    LeadersFrame(c, d, i);
  }

  lemma AcceptAcks(c: Core, d: Core, i: nat, k: nat)
    requires CoreInv(c) && i < |c.nodes|
    requires c.nodes[i].term in c.termLog && k < |c.termLog[c.nodes[i].term]|
    requires d == Accept(c, i, k) && Moves(c, d, i)
    ensures InvAcks(d)
  {
    var p := c.nodes[i];
    FullyKept(d.termLog, d.nodes[i].log, p.term, k, p.term);
    forall a | a in c.acks && a.server == i && GoodAck(c, a) ensures GoodAck(d, a) {
      TakeoverKeeps(c, i, k, a);
    }
    NewAck(c, d, i, Ack(p.term, i, k));
  }

  /** Replacing a log by the leader's loses no acknowledged entry that the leader holds. */
  lemma TakeoverKeeps(c: Core, i: nat, k: nat, a: Ack)
    requires CoreInv(c) && i < |c.nodes|
    requires c.nodes[i].term in c.termLog && k < |c.termLog[c.nodes[i].term]|
    requires GoodAck(c, a) && a.server == i
    ensures GoodAck(Accept(c, i, k), a)
  {
    var p, q := c.nodes[i], Accept(c, i, k).nodes[i];
    var l := c.termLog[p.term];
    forall m | 0 <= m <= a.index ensures Kept(c.termLog, q.log, a.term, m, p.term) {
      assert Kept(c.termLog, p.log, a.term, m, p.term);
      if Agree(p.log, c.termLog[a.term], m + 1) && a.term < p.term && !Agree(c.termLog[a.term], l, m + 1) {
        assert Dropped(c.termLog, a.term, m, p.term, p.term);
      }
    }
  }
}
