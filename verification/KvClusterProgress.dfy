/** From every state that the machine of `KvCluster` reaches without compaction, every pending call can still return. */
module KvClusterProgress {
  import opened RaftTypes
  import opened RaftPeer
  import RaftCore
  import R = RaftSystem
  import opened RaftTheorems
  import opened RaftCommit
  import opened RaftPlain
  import opened RaftAgreed
  import opened RaftToStore
  import opened RaftProgress
  import opened KvStore
  import Locality
  import S = KvService
  import opened KvCluster
  import opened KvClusterStores
  import opened KvClusterLinear

  // ---------------------------------------------------------------- following Raft

  /** A step of Raft as an event of the machine. */
  function EventOf(step: R.Step): Event {
    if step.ApplyLog? then Apply(step.i, {}) else Raft(step)
  }

  function EventsOf(steps: seq<R.Step>): seq<Event> {
    seq(|steps|, k requires 0 <= k < |steps| => EventOf(steps[k]))
  }

  /** Without compaction no snapshot is ever in the network. */
  lemma NoSnapshot(n: nat, steps: seq<R.Step>, step: R.Step)
    requires R.IsRun(n, steps + [step]) && R.WithoutCompaction(steps)
    ensures !step.DeliverSnapshot?
  {
    hide R.IsRun, R.Do;
    Taken(n, steps, step);
    PlainAfter(n, steps);
    if step.DeliverSnapshot? {
      NotSnapshot(n, steps, step.msg);
      assert false;
    }
  }

  lemma NotSnapshot(n: nat, steps: seq<R.Step>, m: R.Message)
    requires R.IsRun(n, steps) && PlainInv(R.After(n, steps), CoreAfter(n, steps)) && m in R.After(n, steps).net
    ensures !m.SnapshotMsg?
  {
    hide R.IsRun, PlainPeer;
    assert PlainMessage(m);
  }

  lemma Taken(n: nat, steps: seq<R.Step>, step: R.Step)
    requires R.IsRun(n, steps + [step])
    ensures R.IsRun(n, steps) && R.Shaped(R.After(n, steps)) && R.Enabled(R.After(n, steps), step)
  {
    hide R.Do, R.Enabled, R.Shaped;
    var more := steps + [step];
    assert more[..|more| - 1] == steps && more[|more| - 1] == step;
  }

  lemma StepServer(n: nat, steps: seq<R.Step>, step: R.Step)
    requires R.IsRun(n, steps + [step]) && step.ApplyLog?
    ensures step.i < n
  {
    hide R.IsRun;
    Taken(n, steps, step);
    RunSize(n, steps);
  }

  /** One step of Raft without compaction is an event that is enabled. */
  lemma OneFollows(w: World, step: R.Step)
    requires Unsnapshotted(w) && R.IsRun(w.n, w.steps + [step]) && !step.CompactLog?
    requires step.ClientStart? ==> Submitted(w.recs, step.command)
    ensures Enabled(w, EventOf(step))
    ensures var w' := Do(w, EventOf(step));
            Unsnapshotted(w') && w'.steps == w.steps + [step] && w'.recs == w.recs && w'.n == w.n
  {
    hide R.IsRun, Peak;
    NoSnapshot(w.n, w.steps, step);
    if step.ApplyLog? {
      StepServer(w.n, w.steps, step);
    }
    PlainEvent(w, EventOf(step));
  }

  lemma {:induction false} Follows(w: World, steps: seq<R.Step>, command: Command)
    requires Unsnapshotted(w) && R.IsRun(w.n, w.steps + steps) && Starts(steps, command) && Submitted(w.recs, command)
    ensures IsRun(w, EventsOf(steps))
    ensures var w' := After(w, EventsOf(steps));
            Unsnapshotted(w') && w'.steps == w.steps + steps && w'.recs == w.recs && w'.n == w.n
    decreases |steps|
  {
    hide R.IsRun, Enabled, Do, Unsnapshotted, Submitted;
    assert Ran(w) by { UnsnapshottedRan(w); }
    var run := EventsOf(steps);
    if steps == [] {
      assert w.steps + steps == w.steps;
    } else {
      var first, rest := steps[0], steps[1..];
      FirstRuns(w.n, w.steps, steps);
      OneFollows(w, first);
      var w' := Do(w, EventOf(first));
      assert w.steps + steps == w'.steps + rest;
      Follows(w', rest, command);
      assert run[0] == EventOf(first) && run[1..] == EventsOf(rest);
    }
  }

  lemma FirstRuns(n: nat, steps: seq<R.Step>, more: seq<R.Step>)
    requires R.IsRun(n, steps + more) && more != []
    ensures R.IsRun(n, steps + [more[0]])
  {
    hide R.IsRun, CoreAfter, RaftCore.Extends;
    RunPrefix(n, steps + more, |steps| + 1);
    assert (steps + more)[..|steps| + 1] == steps + [more[0]];
  }

  lemma {:induction false} RunJoin(w: World, a: seq<Event>, b: seq<Event>)
    requires Ran(w) && IsRun(w, a) && IsRun(After(w, a), b)
    ensures IsRun(w, a + b) && After(w, a + b) == After(After(w, a), b)
    decreases |a|
  {
    hide Ran, Enabled, Do;
    if a == [] {
      assert a + b == b;
    } else {
      EventRan(w, a[0]);
      RunJoin(Do(w, a[0]), a[1..], b);
      assert (a + b)[0] == a[0] && (a + b)[1..] == a[1..] + b;
    }
  }

  lemma {:induction false} StaysUnsnapshotted(w: World, run: seq<Event>)
    requires Unsnapshotted(w) && IsRun(w, run) && WithoutCompaction(run)
    ensures Unsnapshotted(After(w, run))
    decreases |run|
  {
    hide Unsnapshotted, Ran, Enabled, Orderly, Do;
    assert Ran(w) by { UnsnapshottedRan(w); }
    if run != [] {
      PlainEvent(w, run[0]);
      EventRan(w, run[0]);
      StaysUnsnapshotted(Do(w, run[0]), run[1..]);
    }
  }

  // ---------------------------------------------------------------- the answer

  lemma {:induction false} CommandIn(log: seq<Entry>, k: nat, j: nat, op: Op)
    requires j < k <= |log| && log[j].command == Client(op)
    ensures op in Commands(log, k)
    decreases k
  {
    if j < k - 1 {
      CommandIn(log, k - 1, j, op);
    }
  }

  /** A store that has come past an entry has seen its command. */
  lemma SeenInFold(log: seq<Entry>, k: nat, j: nat, op: Op)
    requires j < k <= |log| && log[j].command == Client(op)
    ensures Seen(FoldTo(log, k), op.clientId, op.cmdId)
  {
    CommandIn(log, k, j, op);
    var ops := Commands(log, k);
    var i :| 0 <= i < |ops| && ops[i] == op;
    assert Reached(ops, |ops|, op.clientId, op.cmdId);
    SeenIffReached(ops, |ops|, op.clientId, op.cmdId);
  }

  /** A server that has applied the command has it in its table. */
  lemma ServerHasSeen(n: nat, run: seq<Event>, index: nat, op: Op)
    requires n >= 2 && IsRun(Start(n), run) && WithoutCompaction(run)
    requires AppliedEverywhere(n, After(Start(n), run).steps, index, Client(op))
    ensures Seen(After(Start(n), run).servers[0].store, op.clientId, op.cmdId)
  {
    hide IsRun, OrderlyRun, R.IsRun, WithoutCompaction, S.Inv, Peak, FoldTo, WholeLog, View;
    StartPlain(n);
    PlainOrderly(Start(n), run);
    StaysUnsnapshotted(Start(n), run);
    var w := After(Start(n), run);
    var log := ClusterLinearizable(n, run);
    assert ServerOk(log, PeerNow(w, 0), w.servers[0]);
    AppliedInAgreed(w, log, index, Client(op));
    SeenInFold(log, w.servers[0].at + 1, index, op);
  }

  lemma StartPlain(n: nat)
    requires n > 0
    ensures Unsnapshotted(Start(n))
  {
  }

  lemma AppliedInAgreed(w: World, log: seq<Entry>, index: nat, command: Command)
    requires Unsnapshotted(w) && AgreedIn(w.n, w.steps, log) && AppliedEverywhere(w.n, w.steps, index, command)
    ensures index <= PeerNow(w, 0).lastApplied && index < |log| && log[index].command == command
  {
    hide R.IsRun, R.WithoutCompaction, WholeLog;
    PlainPeerFacts(w.n, w.steps, |w.steps|, 0);
    assert HasApplied(w.n, w.steps, 0, index, command);
    assert Agree(WholeLog(w.n, w.steps, |w.steps|, 0), log, SettledAt(w.n, w.steps, |w.steps|, 0) + 1);
  }

  lemma OneEvent(w: World, e: Event)
    requires Ran(w) && Enabled(w, e)
    ensures Ran(Do(w, e)) && IsRun(w, [e]) && After(w, [e]) == Do(w, e)
  {
    hide Ran, Enabled, Do;
    EventRan(w, e);
    assert [e][0] == e && [e][1..] == [];
  }

  lemma AnsweringDoes(w: World, x: nat)
    requires Ran(w) && x < |w.recs| && !w.recs[x].done
    requires Seen(w.servers[0].store, w.recs[x].op.clientId, w.recs[x].op.cmdId)
    ensures Enabled(w, Answering(x, 0))
    ensures var v, sv := Do(w, Answering(x, 0)), w.servers[0];
            && x < |v.recs| && !v.recs[x].done && v.recs[x].op == w.recs[x].op
            && S.Answer(sv.at, Locality.Lookup(sv.store.db, w.recs[x].op.key)) in v.recs[x].answers
  {
    hide R.IsRun, Peak;
  }

  lemma EndingDoes(w: World, x: nat, answer: S.Answer)
    requires Ran(w) && x < |w.recs| && !w.recs[x].done && answer in w.recs[x].answers
    ensures Enabled(w, Ending(x, answer))
    ensures var v := Do(w, Ending(x, answer)); x < |v.recs| && v.recs[x].done && v.recs[x].value == answer.value
  {
    hide R.IsRun, Peak;
  }

  /** A call whose command a server has seen is answered from its database, and returns. */
  lemma Answers(w: World, x: nat) returns (run: seq<Event>)
    requires Ran(w) && x < |w.recs| && !w.recs[x].done
    requires Seen(w.servers[0].store, w.recs[x].op.clientId, w.recs[x].op.cmdId)
    ensures IsRun(w, run) && WithoutCompaction(run)
    ensures var v := After(w, run);
            && x < |v.recs| && v.recs[x].done
            && v.recs[x].value == Locality.Lookup(w.servers[0].store.db, w.recs[x].op.key)
  {
    hide R.IsRun, Enabled, Do, Seen;
    var sv := w.servers[0];
    var answer := S.Answer(sv.at, Locality.Lookup(sv.store.db, w.recs[x].op.key));
    AnsweringDoes(w, x);
    OneEvent(w, Answering(x, 0));
    var v := Do(w, Answering(x, 0));
    EndingDoes(v, x, answer);
    OneEvent(v, Ending(x, answer));
    RunJoin(w, [Answering(x, 0)], [Ending(x, answer)]);
    run := [Answering(x, 0)] + [Ending(x, answer)];
  }

  /**
   In every run without compaction of two servers or more, a call that has not
   returned can still return: its command goes through Raft to all servers, and
   one of them answers.
   */
  lemma CallsCanReturn(n: nat, run: seq<Event>, x: nat) returns (more: seq<Event>)
    requires n >= 2 && IsRun(Start(n), run) && WithoutCompaction(run)
    requires x < |After(Start(n), run).recs| && !After(Start(n), run).recs[x].done
    ensures IsRun(Start(n), run + more) && WithoutCompaction(run + more)
    ensures var w := After(Start(n), run + more); x < |w.recs| && w.recs[x].done
  {
    hide IsRun, After, R.IsRun, R.WithoutCompaction, AppliedEverywhere, Seen, Starts;
    StartPlain(n);
    StaysUnsnapshotted(Start(n), run);
    var w := After(Start(n), run);
    var op := w.recs[x].op;
    var steps, index := Progress(n, w.steps, Client(op));
    assert Submitted(w.recs, Client(op));
    Follows(w, steps, Client(op));
    var a := EventsOf(steps);
    RunJoin(Start(n), run, a);
    EventsPlain(run, steps, Client(op));
    ServerHasSeen(n, run + a, index, op);
    var v := After(Start(n), run + a);
    var b := Answers(v, x);
    RunJoin(Start(n), run + a, b);
    more := a + b;
    assert run + more == run + a + b;
  }

  /** No call of the clerk is outstanding. */
  ghost predicate Idle(w: World, clientId: nat) {
    forall x :: 0 <= x < |w.recs| && w.recs[x].op.clientId == clientId ==> w.recs[x].done
  }

  lemma IdleCanCall(w: World, clientId: nat, kind: OpKind, key: string, val: string)
    requires Ran(w) && Idle(w, clientId)
    ensures var call := Call(clientId, kind, key, val);
            && Enabled(w, call) && |Do(w, call).recs| == |w.recs| + 1
            && var r := Do(w, call).recs[|w.recs|];
                !r.done && r.op == Op(kind, key, val, clientId, NextNumber(w, clientId))
  {
    hide R.IsRun, Peak;
  }

  /** A clerk with no call outstanding can make any call, and that can return. */
  lemma NewCallsCanReturn(n: nat, run: seq<Event>, clientId: nat, kind: OpKind, key: string, val: string)
    returns (more: seq<Event>)
    requires n >= 2 && IsRun(Start(n), run) && WithoutCompaction(run)
    requires Idle(After(Start(n), run), clientId)
    ensures var call, x := [Call(clientId, kind, key, val)], |After(Start(n), run).recs|;
            && IsRun(Start(n), run + call + more) && IsRun(Start(n), run + call)
            && var v, w := After(Start(n), run + call), After(Start(n), run + call + more);
               && x < |v.recs| && x < |w.recs| && w.recs[x].done
               && v.recs[x].op.(cmdId := 0) == Op(kind, key, val, clientId, 0)
  {
    hide IsRun, R.IsRun, R.WithoutCompaction, Peak, Enabled, Do, Idle;
    StartRan(n);
    var w, call := After(Start(n), run), Call(clientId, kind, key, val);
    IdleCanCall(w, clientId, kind, key, val);
    OneEvent(w, call);
    RunJoin(Start(n), run, [call]);
    more := CallsCanReturn(n, run + [call], |w.recs|);
  }

  lemma EventsPlain(run: seq<Event>, steps: seq<R.Step>, command: Command)
    requires WithoutCompaction(run) && Starts(steps, command)
    ensures WithoutCompaction(run + EventsOf(steps))
  {
  }
}
