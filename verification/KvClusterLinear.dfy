/**
 What the clerks of the machine see is linearizable: the machine is a service
 whose log is what the servers have settled so far.
 */
module KvClusterLinear {
  import opened RaftTypes
  import opened RaftPeer
  import R = RaftSystem
  import opened RaftSafety
  import opened RaftTheorems
  import opened RaftCommit
  import opened RaftAgreed
  import opened RaftToStore
  import opened RaftValidity
  import opened KvStore
  import opened History
  import opened Locality
  import S = KvService
  import opened KvLinear
  import opened KvCluster
  import opened KvClusterStores

  // ---------------------------------------------------------------- the agreed log so far

  lemma {:induction false} MostBounds(peers: seq<Peer>, i: nat)
    requires i < |peers|
    ensures Settled(peers[i]) <= MostSettled(peers)
    decreases |peers|
  {
    if i < |peers| - 1 {
      MostBounds(peers[..|peers| - 1], i);
    }
  }

  lemma {:induction false} MostReached(peers: seq<Peer>) returns (i: nat)
    requires |peers| > 0
    ensures i < |peers| && Settled(peers[i]) == MostSettled(peers)
    decreases |peers|
  {
    i := |peers| - 1;
    if |peers| > 1 {
      var j := MostReached(peers[..|peers| - 1]);
      if Settled(peers[j]) > Settled(peers[i]) {
        i := j;
      }
    }
  }

  lemma PeakBounds(n: nat, steps: seq<R.Step>, i: nat)
    requires R.IsRun(n, steps) && i < n
    ensures Settled(PeerAt(n, steps, |steps|, i)) <= Peak(n, steps)
  {
    hide R.IsRun, MostSettled;
    assert steps[..|steps|] == steps;
    RunSize(n, steps);
    if steps != [] {
      MostBounds(R.After(n, steps).peers, i);
    }
  }

  lemma {:induction false} PeakReached(n: nat, steps: seq<R.Step>) returns (k: nat, i: nat)
    requires R.IsRun(n, steps) && n > 0
    ensures k <= |steps| && i < n && SettledAt(n, steps, k, i) == Peak(n, steps)
    decreases |steps|
  {
    hide MostSettled, R.Do, R.Enabled, R.Shaped;
    k, i := |steps|, 0;
    assert steps[..|steps|] == steps;
    RunSize(n, steps);
    if steps != [] {
      var before := steps[..|steps| - 1];
      i := MostReached(R.After(n, steps).peers);
      var k', i' := PeakReached(n, before);
      if Peak(n, before) == Peak(n, steps) {
        assert before[..k'] == steps[..k'];
        k, i := k', i';
      }
    }
  }

  /** The part of the run that `w` has seen, with all that Raft was given submitted by clerks. */
  ghost predicate Fits(w: World, steps: seq<R.Step>, log: seq<Entry>) {
    && Part(w, steps, log) && StoresOk(w, log)
    && (forall command :: command in Started(w.steps) ==> Submitted(w.recs, command))
  }

  lemma AgreedFirst(n: nat, steps: seq<R.Step>, log: seq<Entry>)
    requires R.IsRun(n, steps) && n > 0 && AgreedIn(n, steps, log)
    ensures |log| > 0 && log[0].command == NoCommand
  {
    assert steps[..0] == [];
    assert WholeLog(n, steps, 0, 0) == [DUMMY];
    assert Agree(WholeLog(n, steps, 0, 0), log, SettledAt(n, steps, 0, 0) + 1);
  }

  /** What is settled so far was submitted so far. */
  lemma AgreedSubmitted(w: World, steps: seq<R.Step>, log: seq<Entry>)
    requires Fits(w, steps, log)
    ensures Peak(w.n, w.steps) < |log| && log[0].command == NoCommand
    ensures forall j :: 1 <= j <= Peak(w.n, w.steps) ==> Submitted(w.recs, log[j].command)
  {
    hide R.IsRun, GuardedRun, Modest, AgreedIn, StoresOk, Submitted, Started, Peak, WholeLog, SettledAt;
    AgreedFirst(w.n, steps, log);
    var k, i := PeakReached(w.n, w.steps);
    AgreedNow(w, steps, log, k, i);
    forall j | 1 <= j <= Peak(w.n, w.steps) ensures Submitted(w.recs, log[j].command) {
      OnlyStartedInWhole(w.n, w.steps, k, i, j);
      StartedStays(w.steps, k);
    }
  }

  /** A log whose entries all carry commands, after the first, is read off entry by entry. */
  lemma {:induction false} CommandsRead(log: seq<Entry>, m: nat)
    requires 1 <= m <= |log| && log[0].command == NoCommand && forall j :: 1 <= j < m ==> log[j].command.Client?
    ensures |Commands(log, m)| == m - 1
    ensures forall j :: 0 <= j < m - 1 ==> Commands(log, m)[j] == log[j + 1].command.op
    decreases m
  {
    if m > 1 {
      CommandsRead(log, m - 1);
    } else {
      assert Commands(log, 0) == [];
    }
  }

  ghost function AgreedOps(w: World, log: seq<Entry>): seq<Op>
    requires Ran(w) && Peak(w.n, w.steps) < |log|
  {
    Commands(log, Peak(w.n, w.steps) + 1)
  }

  lemma CommandOfCall(recs: seq<S.Record>, command: Command)
    requires Submitted(recs, command)
    ensures command.Client?
  {
  }

  lemma AgreedRead(w: World, steps: seq<R.Step>, log: seq<Entry>)
    requires Fits(w, steps, log)
    ensures Peak(w.n, w.steps) < |log| && |AgreedOps(w, log)| == Peak(w.n, w.steps)
    ensures forall j :: 0 <= j < Peak(w.n, w.steps) ==> Submitted(w.recs, Client(AgreedOps(w, log)[j]))
  {
    hide R.IsRun, GuardedRun, Modest, AgreedIn, StoresOk, Started, Peak, Commands, Submitted;
    AgreedSubmitted(w, steps, log);
    var m := Peak(w.n, w.steps) + 1;
    forall j | 1 <= j < m ensures log[j].command.Client? {
      CommandOfCall(w.recs, log[j].command);
    }
    CommandsRead(log, m);
    forall j | 0 <= j < m - 1 ensures Submitted(w.recs, Client(AgreedOps(w, log)[j])) {
      assert Submitted(w.recs, log[j + 1].command);
    }
  }

  /** A server's store is the fold of the agreed commands up to where it has come. */
  lemma ServerStore(w: World, steps: seq<R.Step>, log: seq<Entry>, i: nat)
    requires Fits(w, steps, log) && i < w.n && Peak(w.n, w.steps) < |log| && |AgreedOps(w, log)| == Peak(w.n, w.steps)
    ensures w.servers[i].at <= |AgreedOps(w, log)|
    ensures w.servers[i].store == Fold(AgreedOps(w, log), w.servers[i].at)
  {
    hide R.IsRun, GuardedRun, Modest, AgreedIn, Started, Fold, Peak, Commands, PeerAt, FoldTo;
    CoveredWithin(w, steps, log, i);
    PeakBounds(w.n, w.steps, i);
    assert ServerOk(log, PeerNow(w, i), w.servers[i]);
    ShorterCommands(w, steps, log, w.servers[i].at);
  }

  lemma ShorterCommands(w: World, steps: seq<R.Step>, log: seq<Entry>, a: nat)
    requires Fits(w, steps, log) && Peak(w.n, w.steps) < |log| && a <= Peak(w.n, w.steps) == |AgreedOps(w, log)|
    ensures FoldTo(log, a + 1) == Fold(AgreedOps(w, log), a)
  {
    hide R.IsRun, GuardedRun, Modest, AgreedIn, StoresOk, Started, Peak, Fold, Submitted;
    AgreedSubmitted(w, steps, log);
    forall j | 1 <= j < a + 1 ensures log[j].command.Client? {
      CommandOfCall(w.recs, log[j].command);
    }
    var ops, all := Commands(log, a + 1), AgreedOps(w, log);
    CommandsRead(log, a + 1);
    CommandsPrefix(log, a + 1, Peak(w.n, w.steps) + 1);
    assert all[..|ops|] == ops;
    FoldPrefix(ops, all, a);
  }

  // ---------------------------------------------------------------- the service inside

  /** What the clerks can tell of the machine: a service whose log is the agreed one. */
  ghost function View(w: World, log: seq<Entry>): S.Service
    requires Ran(w) && Peak(w.n, w.steps) < |log|
  {
    S.Service(AgreedOps(w, log), w.recs, w.nextSeq, seq(w.n, i requires 0 <= i < w.n => w.servers[i].at), w.now)
  }

  /** An answer stays right while the log grows. */
  lemma AnswerStaysRight(log: seq<Op>, log': seq<Op>, op: Op, a: S.Answer)
    requires S.AnswerOk(log, op, a) && log <= log'
    ensures S.AnswerOk(log', op, a)
  {
    assert log'[..|log|] == log;
    FoldPrefix(log, log', a.prefix);
    var i :| 0 <= i < a.prefix && log[i] == op;
    assert log'[i] == op;
  }

  lemma RecordStaysRight(log: seq<Op>, log': seq<Op>, now: nat, r: S.Record)
    requires S.RecordOk(log, now, r) && log <= log'
    ensures S.RecordOk(log', now + 1, r)
  {
    hide S.AnswerOk;
    forall a | a in r.answers ensures S.AnswerOk(log', r.op, a) {
      AnswerStaysRight(log, log', r.op, a);
    }
    if r.done {
      AnswerStaysRight(log, log', r.op, S.Answer(r.prefix, r.value));
    }
  }

  /** The log may grow by any number of submitted commands at once. */
  lemma GrowthKeeps(v: S.Service, v': S.Service)
    requires S.Inv(v) && v.log <= v'.log && v' == v.(log := v'.log, covered := v'.covered, now := v.now + 1)
    requires forall i :: |v.log| <= i < |v'.log| ==> Submitted(v.recs, Client(v'.log[i]))
    ensures S.Inv(v')
  {
    hide S.AnswerOk, Submitted;
    forall y | 0 <= y < |v'.recs| ensures S.RecordOk(v'.log, v'.now, v'.recs[y]) {
      RecordStaysRight(v.log, v'.log, v.now, v.recs[y]);
    }
    forall i | 0 <= i < |v'.log| ensures S.EntryOk(v'.recs, i, v'.log[i]) {
      if i < |v.log| {
        assert S.EntryOk(v.recs, i, v.log[i]);
      } else {
        NewEntryOk(v, i, v'.log[i]);
      }
    }
  }

  lemma NewEntryOk(v: S.Service, i: nat, op: Op)
    requires S.Inv(v) && |v.log| <= i && Submitted(v.recs, Client(op))
    ensures S.EntryOk(v.recs, i, op)
  {
    hide S.AnswerOk;
    var x :| 0 <= x < |v.recs| && Client(op) == Client(v.recs[x].op);
    assert S.RecordOk(v.log, v.now, v.recs[x]);
  }

  lemma PeakGrows(n: nat, steps: seq<R.Step>, step: R.Step)
    requires R.IsRun(n, steps + [step])
    ensures R.IsRun(n, steps) && Peak(n, steps) <= Peak(n, steps + [step])
  {
    hide MostSettled, R.Do, R.Enabled, R.Shaped;
    var more := steps + [step];
    assert more[..|more| - 1] == steps;
  }

  lemma StartedMore(steps: seq<R.Step>, step: R.Step)
    ensures Started(steps + [step]) == Started(steps) + StartedBy(step)
  {
    var more := steps + [step];
    assert more[..|more| - 1] == steps;
  }

  lemma SubmittedStays(recs: seq<S.Record>, recs': seq<S.Record>, command: Command)
    requires Submitted(recs, command) && |recs| <= |recs'| && forall x :: 0 <= x < |recs| ==> recs'[x].op == recs[x].op
    ensures Submitted(recs', command)
  {
    var x :| 0 <= x < |recs| && command == Client(recs[x].op);
    assert recs'[x].op == recs[x].op;
  }

  lemma EventFits(w: World, e: Event, steps: seq<R.Step>, log: seq<Entry>)
    requires Fits(w, steps, log) && Enabled(w, e) && Orderly(w, e) && Do(w, e).steps <= steps
    ensures Fits(Do(w, e), steps, log)
  {
    hide R.IsRun, GuardedRun, Modest, AgreedIn, StoresOk, Started, Peak, Submitted, ServersAfter, ParcelsAfter, Orderly;
    EventStores(w, e, steps, log);
    var w' := Do(w, e);
    forall command | command in Started(w'.steps) ensures Submitted(w'.recs, command) {
      if StepIn(e).Some? {
        StartedMore(w.steps, StepIn(e).value);
      } else {
        SubmittedStays(w.recs, w'.recs, command);
      }
    }
  }

  /** An event of Raft or of a server makes the agreed log longer, or not. */
  lemma InnerKeeps(w: World, e: Event, steps: seq<R.Step>, log: seq<Entry>)
    requires Fits(w, steps, log) && Enabled(w, e) && Fits(Do(w, e), steps, log)
    requires !e.Call? && !e.Answering? && !e.Ending?
    requires Peak(w.n, w.steps) < |log| && S.Inv(View(w, log))
    ensures var w' := Do(w, e); Peak(w'.n, w'.steps) < |log| && S.Inv(View(w', log))
  {
    hide R.IsRun, GuardedRun, Modest, AgreedIn, StoresOk, Started, Peak, Submitted, S.Inv, Commands, ServersAfter,
      ParcelsAfter;
    var w' := Do(w, e);
    AgreedRead(w, steps, log);
    AgreedRead(w', steps, log);
    if StepIn(e).Some? {
      PeakGrows(w.n, w.steps, StepIn(e).value);
    }
    CommandsPrefix(log, Peak(w.n, w.steps) + 1, Peak(w'.n, w'.steps) + 1);
    GrowthKeeps(View(w, log), View(w', log));
  }

  /** The clerks' events are steps of the service inside. */
  function ClerkStep(e: Event): S.Step
    requires e.Call? || e.Answering? || e.Ending?
  {
    match e
    case Call(clientId, kind, key, val) => S.Invoke(clientId, kind, key, val)
    case Answering(x, server) => S.Reply(x, server)
    case Ending(x, answer) => S.Return(x, answer)
  }

  lemma ClerkIsServed(w: World, e: Event, steps: seq<R.Step>, log: seq<Entry>)
    requires Fits(w, steps, log) && Enabled(w, e) && (e.Call? || e.Answering? || e.Ending?)
    requires Peak(w.n, w.steps) < |log| && |AgreedOps(w, log)| == Peak(w.n, w.steps)
    ensures S.Enabled(View(w, log), ClerkStep(e))
    ensures var w' := Do(w, e);
            Ran(w') && Peak(w'.n, w'.steps) < |log| && View(w', log) == S.Do(View(w, log), ClerkStep(e))
  {
    hide R.IsRun, GuardedRun, Modest, AgreedIn, StoresOk, Started, Peak, Submitted, Commands, Fold;
    match e
    case Call(clientId, kind, key, val) =>
    case Answering(x, server) =>
      ServerStore(w, steps, log, server);
    case Ending(x, answer) =>
  }

  lemma EventKeeps(w: World, e: Event, steps: seq<R.Step>, log: seq<Entry>)
    requires Fits(w, steps, log) && Enabled(w, e) && Orderly(w, e) && Do(w, e).steps <= steps
    requires Peak(w.n, w.steps) < |log| && S.Inv(View(w, log))
    ensures Fits(Do(w, e), steps, log)
    ensures var w' := Do(w, e); Peak(w'.n, w'.steps) < |log| && S.Inv(View(w', log))
  {
    hide R.IsRun, GuardedRun, Modest, AgreedIn, StoresOk, Started, Peak, Submitted, S.Inv, Commands, View, Enabled, Do,
      Orderly;
    EventFits(w, e, steps, log);
    if e.Call? || e.Answering? || e.Ending? {
      AgreedRead(w, steps, log);
      ClerkIsServed(w, e, steps, log);
      S.StepKeeps(View(w, log), ClerkStep(e));
    } else {
      InnerKeeps(w, e, steps, log);
    }
  }

  lemma {:induction false} StepsGrow(w: World, run: seq<Event>)
    requires Ran(w) && IsRun(w, run)
    ensures w.steps <= After(w, run).steps
    decreases |run|
  {
    hide Ran, Enabled, ServersAfter, ParcelsAfter, Peak;
    if run != [] {
      EventRan(w, run[0]);
      StepsGrow(Do(w, run[0]), run[1..]);
    }
  }

  lemma {:induction false} RunKeepsView(w: World, run: seq<Event>, steps: seq<R.Step>, log: seq<Entry>)
    requires Ran(w) && IsRun(w, run) && OrderlyRun(w, run) && Fits(w, steps, log) && After(w, run).steps == steps
    requires Peak(w.n, w.steps) < |log| && S.Inv(View(w, log))
    ensures var w' := After(w, run); Fits(w', steps, log) && Peak(w'.n, w'.steps) < |log| && S.Inv(View(w', log))
    decreases |run|
  {
    hide Ran, Enabled, Peak, S.Inv, View, Fits, Do, Orderly;
    if run != [] {
      EventRan(w, run[0]);
      StepsGrow(Do(w, run[0]), run[1..]);
      EventKeeps(w, run[0], steps, log);
      RunKeepsView(Do(w, run[0]), run[1..], steps, log);
    }
  }

  lemma StartFits(n: nat, steps: seq<R.Step>, log: seq<Entry>)
    requires n > 0 && R.IsRun(n, steps) && AgreedIn(n, steps, log)
    ensures Fits(Start(n), steps, log)
    ensures Peak(n, []) < |log| && S.Inv(View(Start(n), log))
  {
    AgreedFirst(n, steps, log);
    StartGuarded(n);
    StartStores(n, log);
    hide AgreedIn, StoresOk;
    assert Commands(log, 0) == [];
    assert View(Start(n), log).log == [];
  }

  lemma StartStores(n: nat, log: seq<Entry>)
    requires n > 0 && |log| > 0 && log[0].command == NoCommand
    ensures Ran(Start(n)) && StoresOk(Start(n), log)
  {
    StartRan(n);
    FoldStep(log, 0);
    assert FoldTo(log, 1) == EMPTY;
    forall i | 0 <= i < n ensures ServerOk(log, PeerNow(Start(n), i), NEW_SERVER) {
      assert Start(n).steps[..0] == [];
      assert PeerNow(Start(n), i) == Fresh(i, n);
    }
  }

  /**
   Every orderly run of clerks, servers and Raft together, with compaction,
   snapshots and crashes: there is one log that all servers agree on, each store
   is the fold of a prefix of it, and what the clerks saw is linearizable.
   */
  lemma ClusterLinearizable(n: nat, run: seq<Event>) returns (log: seq<Entry>)
    requires n > 0 && IsRun(Start(n), run) && OrderlyRun(Start(n), run)
    ensures var w := After(Start(n), run);
            && Peak(n, w.steps) < |log| && AgreedIn(n, w.steps, log) && StoresOk(w, log)
            && S.Inv(View(w, log)) && Linearizable(MAP_MODEL, HistoryOf(View(w, log)))
  {
    hide Peak, S.Inv, View, IsRun, OrderlyRun, After, Linearizable, HistoryOf, GuardedRun, Modest, R.IsRun, AgreedIn,
      StoresOk, Started;
    StartGuarded(n);
    var w := After(Start(n), run);
    OrderlyGuarded(Start(n), run);
    StepsGrow(Start(n), run);
    log := AgreedLogOf(w);
    StartFits(n, w.steps, log);
    RunKeepsView(Start(n), run, w.steps, log);
    ServiceLinearizable(View(w, log));
  }

  lemma AgreedLogOf(w: World) returns (log: seq<Entry>)
    requires GuardedWorld(w)
    ensures AgreedIn(w.n, w.steps, log)
  {
    hide R.IsRun, GuardedRun, Modest, WholeLog;
    log := OneAgreedLog(w.n, w.steps);
  }

  // ---------------------------------------------------------------- finished runs

  /** What the clerks of a finished run recorded. */
  function Recorded(w: World): KvHistory {
    seq(|w.recs|, x requires 0 <= x < |w.recs| =>
      var r := w.recs[x];
      Operation(InputOf(r.op), r.call, KvOutput(if r.op.kind == Get then r.value else ""), r.ret))
  }

  ghost predicate Finished(w: World) {
    forall x :: 0 <= x < |w.recs| ==> w.recs[x].done
  }

  /** Once all calls have returned, the record itself is linearizable. */
  lemma FinishedLinearizable(n: nat, run: seq<Event>)
    requires n > 0 && IsRun(Start(n), run) && OrderlyRun(Start(n), run) && Finished(After(Start(n), run))
    ensures Linearizable(MAP_MODEL, Recorded(After(Start(n), run)))
  {
    hide IsRun, OrderlyRun, After, Linearizable, Peak, S.Inv, R.IsRun, AgreedIn, StoresOk, AgreedOps;
    StartRan(n);
    var w := After(Start(n), run);
    var log := ClusterLinearizable(n, run);
    assert Recorded(w) == HistoryOf(View(w, log));
  }

  // ---------------------------------------------------------------- runs without compaction

  predicate WithoutCompaction(run: seq<Event>) {
    forall k :: 0 <= k < |run| ==> !run[k].Compact?
  }

  /** Nobody has a snapshot, so none is under way. */
  ghost predicate Unsnapshotted(w: World) {
    && Ran(w) && R.WithoutCompaction(w.steps) && w.parcels == {}
    && forall i :: 0 <= i < w.n ==> w.servers[i].notices == {}
  }

  /** Without compaction, the guard of the probe is met and no snapshot is sent. */
  lemma PlainProbe(n: nat, steps: seq<R.Step>, i: nat, to: nat)
    requires R.IsRun(n, steps + [R.Check(i, to)]) && R.WithoutCompaction(steps) && i < n && to < n
    ensures R.IsRun(n, steps)
    ensures var p := PeerAt(n, steps, |steps|, i);
            && !CheckConsistency(p, to).SendSnapshot?
            && (CheckConsistency(p, to).SendAppend? ==> p.nextIndex[to] <= p.Last() + 1)
  {
    hide R.IsRun, R.Do;
    var more := steps + [R.Check(i, to)];
    assert more[..|more| - 1] == steps;
    Advance(n, steps, R.Check(i, to), i);
    PlainPeerFacts(n, steps, |steps|, i);
    PlainAfter(n, more);
    LastGuarded(n, steps, R.Check(i, to));
  }

  lemma LastGuarded(n: nat, steps: seq<R.Step>, step: R.Step)
    requires R.IsRun(n, steps + [step]) && GuardedRun(n, steps + [step])
    ensures R.IsRun(n, steps) && R.Shaped(R.After(n, steps)) && R.Enabled(R.After(n, steps), step)
    ensures Guarded(R.After(n, steps), step)
  {
    var more := steps + [step];
    assert more[..|more| - 1] == steps;
    hide Guarded, R.Shaped, R.Enabled;
  }

  lemma PlainEvent(w: World, e: Event)
    requires Unsnapshotted(w) && Enabled(w, e) && !e.Compact?
    ensures Orderly(w, e) && Unsnapshotted(Do(w, e))
  {
    hide R.IsRun, CheckConsistency, Peak, MsgsOf, HandAll, HandleSnapshot;
    EventRan(w, e);
    if e.Raft? && e.step.Check? && e.step.i < w.n && e.step.to < w.n {
      PlainProbe(w.n, w.steps, e.step.i, e.step.to);
    }
  }

  lemma {:induction false} PlainOrderly(w: World, run: seq<Event>)
    requires Unsnapshotted(w) && IsRun(w, run) && WithoutCompaction(run)
    ensures OrderlyRun(w, run)
    decreases |run|
  {
    hide Unsnapshotted, Ran, Enabled, Orderly, Do;
    assert Ran(w) by { UnsnapshottedRan(w); }
    if run != [] {
      PlainEvent(w, run[0]);
      EventRan(w, run[0]);
      PlainOrderly(Do(w, run[0]), run[1..]);
    }
  }

  lemma UnsnapshottedRan(w: World)
    requires Unsnapshotted(w)
    ensures Ran(w)
  {
  }

  /** Every run without compaction is orderly, and so linearizable. */
  lemma PlainLinearizable(n: nat, run: seq<Event>) returns (log: seq<Entry>)
    requires n > 0 && IsRun(Start(n), run) && WithoutCompaction(run)
    ensures OrderlyRun(Start(n), run)
    ensures var w := After(Start(n), run);
            && Peak(n, w.steps) < |log| && AgreedIn(n, w.steps, log)
            && Linearizable(MAP_MODEL, HistoryOf(View(w, log)))
  {
    StartRan(n);
    hide IsRun, OrderlyRun, After, Linearizable, Peak, S.Inv, R.IsRun, AgreedIn, StoresOk, View, HistoryOf,
      WithoutCompaction;
    PlainOrderly(Start(n), run);
    log := ClusterLinearizable(n, run);
  }
}
