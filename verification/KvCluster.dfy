/**
 Clerks, servers and Raft as one machine.  What the clerks submit goes into the
 logs of a Raft cluster, each server's store is fed by its own apply loop and
 by the snapshots installed for it, and the clerks are answered from the stores.
 */
module KvCluster {
  import opened RaftTypes
  import opened RaftPeer
  import R = RaftSystem
  import opened RaftSafety
  import opened RaftTheorems
  import opened RaftRules
  import opened RaftToStore
  import opened KvStore
  import Locality
  import P = KvReplica
  import S = KvService

  /**
   What a server has besides its Raft peer: its store, the snapshot on disk, the
   compactions it has asked for, and the snapshots on their way to it. `at` is
   the index up to which the store has come; it only serves to talk about it.
   */
  datatype Server = Server(store: Store, at: nat, disk: Store, compacting: set<P.Saved>, notices: set<P.Saved>)

  const NEW_SERVER := Server(EMPTY, 0, EMPTY, {}, {})

  /** A snapshot request in the network, with its payload. */
  datatype Parcel = Parcel(args: SnapshotArgs, store: Store)

  /** The steps Raft has taken stand for its state; `recs` are the clerks' calls. */
  datatype World = World(
    n: nat, steps: seq<R.Step>, servers: seq<Server>, parcels: set<Parcel>,
    recs: seq<S.Record>, nextSeq: map<nat, nat>, now: nat)

  datatype Event =
    | Raft(step: R.Step)
    | Apply(i: nat, asks: set<nat>)
    | Compact(i: nat, saved: P.Saved)
    | Install(m: R.Message, store: Store)
    | Notify(i: nat, saved: P.Saved)
    | Call(clientId: nat, kind: OpKind, key: string, val: string)
    | Answering(x: nat, server: nat)
    | Ending(x: nat, answer: S.Answer)

  /** The step of Raft in an event. */
  function StepIn(e: Event): Option<R.Step> {
    match e
    case Raft(step) => Some(step)
    case Apply(i, _) => Some(R.ApplyLog(i))
    case Compact(i, saved) => Some(R.CompactLog(i, saved.index))
    case Install(m, _) => Some(R.DeliverSnapshot(m))
    case _ => None
  }

  /** The command is that of some call. */
  ghost predicate Submitted(recs: seq<S.Record>, command: Command) {
    exists x :: 0 <= x < |recs| && command == Client(recs[x].op)
  }

  ghost predicate Ran(w: World) {
    w.n > 0 && R.IsRun(w.n, w.steps) && |w.servers| == w.n
  }

  ghost function PeerNow(w: World, i: nat): Peer
    requires Ran(w) && i < w.n
  {
    PeerAt(w.n, w.steps, |w.steps|, i)
  }

  /** The largest settled index among the peers. */
  function MostSettled(peers: seq<Peer>): nat {
    if peers == [] then 0 else Max(MostSettled(peers[..|peers| - 1]), Settled(peers[|peers| - 1]))
  }

  /** The largest index any server has had committed or compacted. */
  ghost function Peak(n: nat, steps: seq<R.Step>): nat
    requires R.IsRun(n, steps)
    decreases |steps|
  {
    if steps == [] then 0 else Max(Peak(n, steps[..|steps| - 1]), MostSettled(R.After(n, steps).peers))
  }

  function NextNumber(w: World, clientId: nat): nat {
    if clientId in w.nextSeq then w.nextSeq[clientId] else 0
  }

  ghost predicate Enabled(w: World, e: Event)
    requires Ran(w)
  {
    && (StepIn(e).Some? ==> R.IsRun(w.n, w.steps + [StepIn(e).value]))
    && match e
       // a handler submits the command of a call, perhaps more than once and perhaps after the call returned
       case Raft(step) =>
         && !step.ApplyLog? && !step.CompactLog? && !step.DeliverSnapshot?
         && (step.ClientStart? ==> Submitted(w.recs, step.command))
       case Apply(i, _) => i < w.n
       case Compact(i, saved) => i < w.n && saved in w.servers[i].compacting
       case Install(m, store) => m.SnapshotMsg? && m.to < w.n && Parcel(m.snapshot, store) in w.parcels
       case Notify(i, saved) => i < w.n && saved in w.servers[i].notices
       // one outstanding call per clerk
       case Call(clientId, _, _, _) =>
         forall x :: 0 <= x < |w.recs| && w.recs[x].op.clientId == clientId ==> w.recs[x].done
       // a server, leader or not, has the command in its table
       case Answering(x, server) =>
         && x < |w.recs| && !w.recs[x].done && server < w.n
         && Seen(w.servers[server].store, w.recs[x].op.clientId, w.recs[x].op.cmdId)
       case Ending(x, answer) => x < |w.recs| && !w.recs[x].done && answer in w.recs[x].answers
  }

  /** The compactions a server asks for while it applies `msgs`: the index, and the store at that moment. */
  function Asked(store: Store, msgs: seq<ApplyMsg>, asks: set<nat>): set<P.Saved> {
    set k | 0 <= k < |msgs| && msgs[k].index in asks :: P.Saved(msgs[k].index, HandAll(store, msgs[..k + 1]))
  }

  function Applied(p: Peer, sv: Server, asks: set<nat>): Server {
    var msgs := MsgsOf(p);
    sv.(store := HandAll(sv.store, msgs), at := Covered(p) + |msgs|,
        compacting := sv.compacting + Asked(sv.store, msgs, asks))
  }

  function Compacted(p: Peer, sv: Server, saved: P.Saved): Server {
    sv.(compacting := sv.compacting - {saved},
        disk := if RaftPeer.Compact(p, saved.index).snapshotIndex > p.snapshotIndex then saved.store else sv.disk)
  }

  function Installed(p: Peer, sv: Server, args: SnapshotArgs, store: Store): Server {
    if HandleSnapshot(p, args).0.snapshotIndex > p.snapshotIndex then
      sv.(disk := store, notices := sv.notices + {P.Saved(args.lastIndex, store)})
    else sv
  }

  function Notified(sv: Server, saved: P.Saved): Server {
    sv.(store := saved.store, at := saved.index, notices := sv.notices - {saved})
  }

  function Restarted(p: Peer, sv: Server): Server {
    Server(sv.disk, p.snapshotIndex, sv.disk, {}, {})
  }

  ghost function ServersAfter(w: World, e: Event): seq<Server>
    requires Ran(w) && Enabled(w, e)
  {
    match e
    case Raft(step) =>
      if step.Crash? && step.i < w.n then w.servers[step.i := Restarted(PeerNow(w, step.i), w.servers[step.i])]
      else w.servers
    case Apply(i, asks) => w.servers[i := Applied(PeerNow(w, i), w.servers[i], asks)]
    case Compact(i, saved) => w.servers[i := Compacted(PeerNow(w, i), w.servers[i], saved)]
    case Install(m, store) => w.servers[m.to := Installed(PeerNow(w, m.to), w.servers[m.to], m.snapshot, store)]
    case Notify(i, saved) => w.servers[i := Notified(w.servers[i], saved)]
    case _ => w.servers
  }

  /** A leader that sends its snapshot reads it off its disk. */
  ghost function ParcelsAfter(w: World, e: Event): set<Parcel>
    requires Ran(w)
  {
    if e.Raft? && e.step.Check? && e.step.i < w.n && e.step.to < w.n then
      var probe := CheckConsistency(PeerNow(w, e.step.i), e.step.to);
      if probe.SendSnapshot? then w.parcels + {Parcel(probe.snapshot, w.servers[e.step.i].disk)} else w.parcels
    else w.parcels
  }

  ghost function Do(w: World, e: Event): World
    requires Ran(w) && Enabled(w, e)
  {
    var w' := w.(
      steps := if StepIn(e).Some? then w.steps + [StepIn(e).value] else w.steps,
      servers := ServersAfter(w, e), parcels := ParcelsAfter(w, e), now := w.now + 1);
    match e
    case Call(clientId, kind, key, val) =>
      var op := Op(kind, key, val, clientId, NextNumber(w, clientId));
      w'.(recs := w.recs + [S.Record(op, w.now, Peak(w.n, w.steps), {}, false, 0, 0, 0, "")],
          nextSeq := w.nextSeq[clientId := NextNumber(w, clientId) + 1])
    case Answering(x, server) =>
      var r, sv := w.recs[x], w.servers[server];
      w'.(recs := w.recs[x := r.(answers := r.answers + {S.Answer(sv.at, Locality.Lookup(sv.store.db, r.op.key))})])
    case Ending(x, answer) =>
      w'.(recs := w.recs[x := w.recs[x].(done := true, ret := w.now, last := Peak(w.n, w.steps),
                                         prefix := answer.prefix, value := answer.value)])
    case _ => w'
  }

  /** No event leads out of the runs of Raft. */
  lemma EventRan(w: World, e: Event)
    requires Ran(w) && Enabled(w, e)
    ensures Ran(Do(w, e))
  {
    hide R.IsRun, Peak;
  }

  ghost predicate IsRun(w: World, run: seq<Event>)
    requires Ran(w)
    decreases |run|
  {
    run == [] || (Enabled(w, run[0]) && (EventRan(w, run[0]); IsRun(Do(w, run[0]), run[1..])))
  }

  ghost function After(w: World, run: seq<Event>): (r: World)
    requires Ran(w) && IsRun(w, run)
    ensures Ran(r) && r.n == w.n
    decreases |run|
  {
    if run == [] then w else EventRan(w, run[0]); After(Do(w, run[0]), run[1..])
  }

  function Start(n: nat): World {
    World(n, [], seq(n, _ => NEW_SERVER), {}, [], map[], 0)
  }

  lemma StartRan(n: nat)
    requires n > 0
    ensures Ran(Start(n))
  {
  }

  // ---------------------------------------------------------------- orderly runs

  /**
   What the code does not check: a leader probes from within its log, and
   nothing is handed to a server that still has an installed snapshot to come.
   */
  ghost predicate Orderly(w: World, e: Event)
    requires Ran(w) && Enabled(w, e)
  {
    match e
    case Raft(step) =>
      step.Check? && step.i < w.n && step.to < w.n ==>
        var p := PeerNow(w, step.i);
        CheckConsistency(p, step.to).SendAppend? ==> p.nextIndex[step.to] <= p.Last() + 1
    case Apply(i, _) => w.servers[i].notices == {}
    case Install(m, _) => w.servers[m.to].notices == {}
    case _ => true
  }

  ghost predicate OrderlyRun(w: World, run: seq<Event>)
    requires Ran(w) && IsRun(w, run)
    decreases |run|
  {
    run == [] || (Orderly(w, run[0]) && (EventRan(w, run[0]); OrderlyRun(Do(w, run[0]), run[1..])))
  }

  /** One step of Raft, seen from server `i`. */
  lemma Advance(n: nat, steps: seq<R.Step>, step: R.Step, i: nat)
    requires R.IsRun(n, steps + [step]) && i < n
    ensures R.IsRun(n, steps)
    ensures var s := R.After(n, steps);
            && R.Shaped(s) && R.Enabled(s, step) && |s.peers| == n == |R.Do(s, step).peers|
            && R.After(n, steps + [step]) == R.Do(s, step)
            && s.peers[i] == PeerAt(n, steps, |steps|, i)
            && R.Do(s, step).peers[i] == PeerAt(n, steps + [step], |steps| + 1, i)
  {
    hide R.IsRun, R.Do, R.Enabled, R.Shaped, R.After;
    var more := steps + [step];
    assert more[..|more|] == more && more[..|more| - 1] == steps && steps[..|steps|] == steps;
    RunSplits(n, more, |more|);
  }

  /** What a step of Raft does to the indexes of a peer. */
  ghost predicate Indexed(p: Peer, q: Peer, step: R.Step, i: nat) {
    match step
    case ApplyLog(j) =>
      if j == i then RaftPeer.Apply(p).Some? && q == RaftPeer.Apply(p).value.0 else SameIndexes(p, q)
    case CompactLog(j, index) => if j == i then q == RaftPeer.Compact(p, index) else SameIndexes(p, q)
    case DeliverSnapshot(m) =>
      if m.SnapshotMsg? && m.to == i then q == HandleSnapshot(p, m.snapshot).0 else SameIndexes(p, q)
    case Crash(j) => if j == i then q.lastApplied == 0 && q.snapshotIndex == p.snapshotIndex else SameIndexes(p, q)
    case _ => SameIndexes(p, q)
  }

  predicate SameIndexes(p: Peer, q: Peer) {
    q.lastApplied == p.lastApplied && q.snapshotIndex == p.snapshotIndex
  }

  lemma StepIndexes(s: R.System, step: R.Step, i: nat)
    requires R.Shaped(s) && R.Enabled(s, step) && i < |s.peers|
    ensures i < |R.Do(s, step).peers| && Indexed(s.peers[i], R.Do(s, step).peers[i], step, i)
  {
    hide MatchLen, RunStart, Matched, Merge, RaftPeer.Apply, RaftPeer.Compact, HandleSnapshot;
  }

  // ---------------------------------------------------------------- orderly runs are guarded

  /** No server asks for a compaction beyond what it has applied. */
  ghost predicate Modest(w: World)
    requires Ran(w)
  {
    forall i, saved :: 0 <= i < w.n && saved in w.servers[i].compacting ==> saved.index <= PeerNow(w, i).lastApplied
  }

  ghost predicate GuardedWorld(w: World) {
    Ran(w) && GuardedRun(w.n, w.steps) && Modest(w)
  }

  /** The guard of a step of Raft, from what the machine knows about its peers. */
  lemma GuardHolds(w: World, e: Event, s: R.System)
    requires GuardedWorld(w) && Enabled(w, e) && Orderly(w, e) && StepIn(e).Some?
    requires R.Shaped(s) && R.Enabled(s, StepIn(e).value) && |s.peers| == w.n
    requires forall i :: 0 <= i < w.n ==> s.peers[i] == PeerNow(w, i)
    ensures Guarded(s, StepIn(e).value)
  {
    hide R.IsRun, GuardedRun, Peak, CheckConsistency, PeerNow, HandleAppendReply, RaftPeer.Apply;
    match StepIn(e).value
    case Check(i, to) =>
      assert s.peers[i] == PeerNow(w, i);
    case CompactLog(i, index) =>
      assert s.peers[i] == PeerNow(w, i);
    case _ =>
  }

  lemma StepIsGuarded(w: World, e: Event)
    requires GuardedWorld(w) && Enabled(w, e) && Orderly(w, e) && StepIn(e).Some?
    ensures GuardedRun(w.n, w.steps + [StepIn(e).value])
  {
    hide R.IsRun, R.Do, R.Enabled, R.Shaped, GuardedRun, Guarded, Peak, Orderly, Modest, PeerAt;
    var step, s := StepIn(e).value, R.After(w.n, w.steps);
    Advance(w.n, w.steps, step, 0);
    forall i | 0 <= i < w.n ensures s.peers[i] == PeerNow(w, i) {
      Advance(w.n, w.steps, step, i);
    }
    GuardHolds(w, e, s);
    GuardedMore(w.n, w.steps, step);
  }

  lemma GuardedMore(n: nat, steps: seq<R.Step>, step: R.Step)
    requires R.IsRun(n, steps + [step]) && R.IsRun(n, steps) && GuardedRun(n, steps)
    requires R.Shaped(R.After(n, steps)) && R.Enabled(R.After(n, steps), step) && Guarded(R.After(n, steps), step)
    ensures GuardedRun(n, steps + [step])
  {
    var more := steps + [step];
    assert more[..|more| - 1] == steps;
  }

  /** The messages of the apply loop come before the new applied index. */
  lemma AppliedUpTo(p: Peer)
    requires RaftPeer.Apply(p).Some?
    ensures var q := RaftPeer.Apply(p).value.0;
            && p.lastApplied <= q.lastApplied && q.snapshotIndex == p.snapshotIndex
            && Covered(q) == Covered(p) + |MsgsOf(p)|
            && (forall k :: 0 <= k < |MsgsOf(p)| ==> MsgsOf(p)[k].index == Covered(p) + 1 + k <= q.lastApplied)
  {
  }

  lemma EventModest(w: World, e: Event)
    requires GuardedWorld(w) && Enabled(w, e)
    ensures Ran(Do(w, e)) && Modest(Do(w, e))
  {
    hide R.IsRun, GuardedRun, Peak, Indexed, ServersAfter, PeerAt;
    EventRan(w, e);
    var w' := Do(w, e);
    forall i, saved | 0 <= i < w'.n && saved in w'.servers[i].compacting
      ensures saved.index <= PeerNow(w', i).lastApplied
    {
      StepSeen(w, e, i);
      ModestServer(w, e, i, saved);
    }
  }

  /** What an event does to the indexes of peer `i`. */
  lemma StepSeen(w: World, e: Event, i: nat)
    requires Ran(w) && Enabled(w, e) && Ran(Do(w, e)) && i < w.n
    ensures if StepIn(e).Some? then Indexed(PeerNow(w, i), PeerNow(Do(w, e), i), StepIn(e).value, i)
            else PeerNow(Do(w, e), i) == PeerNow(w, i)
  {
    hide R.IsRun, Peak, ServersAfter, ParcelsAfter, Indexed;
    if StepIn(e).Some? {
      Advance(w.n, w.steps, StepIn(e).value, i);
      StepIndexes(R.After(w.n, w.steps), StepIn(e).value, i);
    }
  }

  lemma ModestServer(w: World, e: Event, i: nat, saved: P.Saved)
    requires GuardedWorld(w) && Enabled(w, e) && Ran(Do(w, e)) && i < w.n
    requires saved in Do(w, e).servers[i].compacting
    requires if StepIn(e).Some? then Indexed(PeerNow(w, i), PeerNow(Do(w, e), i), StepIn(e).value, i)
             else PeerNow(Do(w, e), i) == PeerNow(w, i)
    ensures saved.index <= PeerNow(Do(w, e), i).lastApplied
  {
    hide R.IsRun, GuardedRun, Peak, RaftPeer.Apply, MsgsOf, HandAll, PeerAt, ParcelsAfter;
    var p, q := PeerNow(w, i), PeerNow(Do(w, e), i);
    if e.Apply? && e.i == i {
      AppliedUpTo(p);
    }
  }

  lemma EventGuarded(w: World, e: Event)
    requires GuardedWorld(w) && Enabled(w, e) && Orderly(w, e)
    ensures GuardedWorld(Do(w, e))
  {
    hide R.IsRun, GuardedRun, Modest, Peak, ServersAfter, ParcelsAfter;
    EventModest(w, e);
    if StepIn(e).Some? {
      StepIsGuarded(w, e);
    }
  }

  /** Every orderly run of the machine is a guarded run of Raft. */
  lemma {:induction false} OrderlyGuarded(w: World, run: seq<Event>)
    requires GuardedWorld(w) && IsRun(w, run) && OrderlyRun(w, run)
    ensures GuardedWorld(After(w, run))
    decreases |run|
  {
    hide Enabled, Do, Modest, GuardedRun;
    if run != [] {
      EventGuarded(w, run[0]);
      OrderlyGuarded(Do(w, run[0]), run[1..]);
    }
  }

  lemma StartGuarded(n: nat)
    requires n > 0
    ensures GuardedWorld(Start(n))
  {
  }
}
