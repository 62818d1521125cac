/**
 The key/value service as its clients see it: clerks with one call at a time,
 an agreed log that grows, and servers that each cover some prefix of it.
 */
module KvService {
  import opened RaftTypes
  import opened KvStore
  import opened Locality

  /** What a server said about a call: the value it read, and how much of the log it covered then. */
  datatype Answer = Answer(prefix: nat, value: string)

  /**
   One call of a clerk. `born` and `last` are the lengths of the agreed log when
   it was made and when it returned; they and `prefix` only serve to talk about it.
   */
  datatype Record = Record(
    op: Op, call: nat, born: nat, answers: set<Answer>,
    done: bool, ret: nat, last: nat, prefix: nat, value: string)

  datatype Service = Service(log: seq<Op>, recs: seq<Record>, nextSeq: map<nat, nat>, covered: seq<nat>, now: nat)

  datatype Step =
    | Invoke(clientId: nat, kind: OpKind, key: string, val: string)
    | Enter(x: nat)
    | Move(server: nat, n: nat)
    | Reply(x: nat, server: nat)
    | Return(x: nat, answer: Answer)

  function NextSeq(v: Service, clientId: nat): nat {
    if clientId in v.nextSeq then v.nextSeq[clientId] else 0
  }

  ghost predicate Enabled(v: Service, s: Step) {
    match s
    // one outstanding call per clerk
    case Invoke(clientId, _, _, _) =>
      forall x :: 0 <= x < |v.recs| && v.recs[x].op.clientId == clientId ==> v.recs[x].done
    // a handler's command reaches the agreed log, perhaps more than once and perhaps after the call returned
    case Enter(x) => x < |v.recs|
    // a server applies, installs a snapshot, or restarts: it covers some prefix of the log
    case Move(server, n) => server < |v.covered| && n <= |v.log|
    // a server, leader or not, has seen the command
    case Reply(x, server) =>
      && x < |v.recs| && !v.recs[x].done && server < |v.covered| && v.covered[server] <= |v.log|
      && Seen(Fold(v.log, v.covered[server]), v.recs[x].op.clientId, v.recs[x].op.cmdId)
    case Return(x, answer) => x < |v.recs| && !v.recs[x].done && answer in v.recs[x].answers
  }

  /** A key that is not there reads as the empty string. */
  function Read(log: seq<Op>, n: nat, key: string): string
    requires n <= |log|
  {
    Lookup(Fold(log, n).db, key)
  }

  function Replied(v: Service, x: nat, server: nat): Record
    requires x < |v.recs| && server < |v.covered| && v.covered[server] <= |v.log|
  {
    var n := v.covered[server];
    v.recs[x].(answers := v.recs[x].answers + {Answer(n, Read(v.log, n, v.recs[x].op.key))})
  }

  function Returned(v: Service, x: nat, answer: Answer): Record
    requires x < |v.recs|
  {
    v.recs[x].(done := true, ret := v.now, last := |v.log|, prefix := answer.prefix, value := answer.value)
  }

  function Invoked(v: Service, op: Op): Record {
    Record(op, v.now, |v.log|, {}, false, 0, 0, 0, "")
  }

  ghost function Do(v: Service, s: Step): Service
    requires Enabled(v, s)
  {
    var v' := v.(now := v.now + 1);
    match s
    case Invoke(clientId, kind, key, val) =>
      var op := Op(kind, key, val, clientId, NextSeq(v, clientId));
      v'.(recs := v.recs + [Invoked(v, op)], nextSeq := v.nextSeq[clientId := NextSeq(v, clientId) + 1])
    case Enter(x) => v'.(log := v.log + [v.recs[x].op])
    case Move(server, n) => v'.(covered := v.covered[server := n])
    case Reply(x, server) => v'.(recs := v.recs[x := Replied(v, x, server)])
    case Return(x, answer) => v'.(recs := v.recs[x := Returned(v, x, answer)])
  }

  // ---------------------------------------------------------------- invariant

  /** The command has an entry before position `n`. */
  ghost predicate Entered(log: seq<Op>, n: nat, op: Op)
    requires n <= |log|
  {
    exists i :: 0 <= i < n && log[i] == op
  }

  /** An answer reads the fold of a prefix that holds the call's own command. */
  ghost predicate AnswerOk(log: seq<Op>, op: Op, a: Answer) {
    a.prefix <= |log| && Entered(log, a.prefix, op) && a.value == Read(log, a.prefix, op.key)
  }

  ghost predicate RecordOk(log: seq<Op>, now: nat, r: Record) {
    && r.call < now && r.born <= |log|
    && (forall a :: a in r.answers ==> AnswerOk(log, r.op, a))
    && (r.done ==>
          && r.call < r.ret < now && r.prefix <= r.last <= |log|
          && AnswerOk(log, r.op, Answer(r.prefix, r.value)))
  }

  /** A clerk's calls come one after the other, with growing numbers. */
  ghost predicate Sequential(a: Record, b: Record) {
    a.op.clientId == b.op.clientId ==> a.done && a.ret < b.call && a.op.cmdId < b.op.cmdId
  }

  /** A call made after another returned starts from a log at least as long. */
  ghost predicate Later(a: Record, b: Record) {
    a.done ==> a.ret != b.call && (a.ret < b.call ==> a.last <= b.born)
  }

  ghost predicate EntryOk(recs: seq<Record>, i: nat, op: Op) {
    exists x :: 0 <= x < |recs| && recs[x].op == op && recs[x].born <= i
  }

  ghost predicate Inv(v: Service) {
    && (forall x :: 0 <= x < |v.recs| ==> RecordOk(v.log, v.now, v.recs[x]))
    && (forall x :: 0 <= x < |v.recs| ==> v.recs[x].op.cmdId < NextSeq(v, v.recs[x].op.clientId))
    && (forall x, y :: 0 <= x < y < |v.recs| ==> Sequential(v.recs[x], v.recs[y]))
    && (forall x, y :: 0 <= x < |v.recs| && 0 <= y < |v.recs| ==> Later(v.recs[x], v.recs[y]))
    && (forall i :: 0 <= i < |v.log| ==> EntryOk(v.recs, i, v.log[i]))
  }

  lemma AnswerStays(log: seq<Op>, e: Op, op: Op, a: Answer)
    requires AnswerOk(log, op, a)
    ensures AnswerOk(log + [e], op, a)
  {
    assert (log + [e])[..|log|] == log;
    FoldPrefix(log, log + [e], a.prefix);
    var i :| 0 <= i < a.prefix && log[i] == op;
    assert (log + [e])[i] == op;
  }

  lemma RecordStays(log: seq<Op>, e: Op, now: nat, r: Record)
    requires RecordOk(log, now, r)
    ensures RecordOk(log + [e], now + 1, r)
  {
    hide AnswerOk;
    forall a | a in r.answers ensures AnswerOk(log + [e], r.op, a) {
      AnswerStays(log, e, r.op, a);
    }
    if r.done {
      AnswerStays(log, e, r.op, Answer(r.prefix, r.value));
    }
  }

  lemma InvokeKeeps(v: Service, clientId: nat, kind: OpKind, key: string, val: string)
    requires Inv(v) && Enabled(v, Invoke(clientId, kind, key, val))
    ensures Inv(Do(v, Invoke(clientId, kind, key, val)))
  {
    var v' := Do(v, Invoke(clientId, kind, key, val));
    hide AnswerOk;
    assert forall x :: 0 <= x < |v.recs| ==> v'.recs[x] == v.recs[x];
    forall x | 0 <= x < |v'.recs| ensures RecordOk(v'.log, v'.now, v'.recs[x]) {
      if x < |v.recs| {
        assert RecordOk(v.log, v.now, v.recs[x]);
      }
    }
    forall x, y | 0 <= x < |v'.recs| && 0 <= y < |v'.recs| ensures Later(v'.recs[x], v'.recs[y]) {
      if x < |v.recs| {
        assert RecordOk(v.log, v.now, v.recs[x]);
        assert y < |v.recs| ==> Later(v.recs[x], v.recs[y]);
      }
    }
    forall x, y | 0 <= x < y < |v'.recs| ensures Sequential(v'.recs[x], v'.recs[y]) {
      assert RecordOk(v.log, v.now, v.recs[x]);
      assert y < |v.recs| ==> Sequential(v.recs[x], v.recs[y]);
    }
    forall i | 0 <= i < |v'.log| ensures EntryOk(v'.recs, i, v'.log[i]) {
      assert EntryOk(v.recs, i, v.log[i]);
      var x :| 0 <= x < |v.recs| && v.recs[x].op == v.log[i] && v.recs[x].born <= i;
      assert v'.recs[x].op == v'.log[i];
    }
  }

  lemma EnterKeeps(v: Service, x: nat)
    requires Inv(v) && Enabled(v, Enter(x))
    ensures Inv(Do(v, Enter(x)))
  {
    var v' := Do(v, Enter(x));
    forall y | 0 <= y < |v'.recs| ensures RecordOk(v'.log, v'.now, v'.recs[y]) {
      RecordStays(v.log, v.recs[x].op, v.now, v.recs[y]);
    }
    hide AnswerOk;
    forall i | 0 <= i < |v'.log| ensures EntryOk(v'.recs, i, v'.log[i]) {
      if i < |v.log| {
        assert EntryOk(v.recs, i, v.log[i]);
      } else {
        assert v'.recs[x].op == v'.log[i] && RecordOk(v.log, v.now, v.recs[x]);
      }
    }
  }

  /** Only one record has the command's number, and a later command of the client means that the call is done. */
  lemma OwnEntry(v: Service, x: nat, n: nat)
    requires Inv(v) && x < |v.recs| && !v.recs[x].done && n <= |v.log|
    requires Seen(Fold(v.log, n), v.recs[x].op.clientId, v.recs[x].op.cmdId)
    ensures Entered(v.log, n, v.recs[x].op)
  {
    var op := v.recs[x].op;
    SeenIffReached(v.log, n, op.clientId, op.cmdId);
    var i :| 0 <= i < n && v.log[i].clientId == op.clientId && op.cmdId <= v.log[i].cmdId;
    assert EntryOk(v.recs, i, v.log[i]);
    var y :| 0 <= y < |v.recs| && v.recs[y].op == v.log[i] && v.recs[y].born <= i;
    assert y < x ==> Sequential(v.recs[y], v.recs[x]);
    assert x < y ==> Sequential(v.recs[x], v.recs[y]);
  }

  /** Changing one record in its answers or its outcome keeps what relates the records. */
  lemma UpdateKeeps(v: Service, v': Service, x: nat, r: Record)
    requires Inv(v) && x < |v.recs| && RecordOk(v.log, v.now + 1, r)
    requires v' == v.(recs := v.recs[x := r], now := v.now + 1)
    requires r.op == v.recs[x].op && r.call == v.recs[x].call && r.born == v.recs[x].born && !v.recs[x].done
    requires r.done ==> r.ret == v.now
    ensures Inv(v')
  {
    hide AnswerOk;
    forall y | 0 <= y < |v'.recs| ensures RecordOk(v'.log, v'.now, v'.recs[y]) {
      assert RecordOk(v.log, v.now, v.recs[y]);
    }
    forall y, z | 0 <= y < z < |v'.recs| ensures Sequential(v'.recs[y], v'.recs[z]) {
      assert Sequential(v.recs[y], v.recs[z]);
    }
    forall y, z | 0 <= y < |v'.recs| && 0 <= z < |v'.recs| ensures Later(v'.recs[y], v'.recs[z]) {
      assert Later(v.recs[y], v.recs[z]) && RecordOk(v.log, v.now, v.recs[z]);
    }
    forall i | 0 <= i < |v'.log| ensures EntryOk(v'.recs, i, v'.log[i]) {
      assert EntryOk(v.recs, i, v.log[i]);
      var y :| 0 <= y < |v.recs| && v.recs[y].op == v.log[i] && v.recs[y].born <= i;
      assert v'.recs[y].op == v'.log[i] && v'.recs[y].born <= i;
    }
  }

  lemma StepKeeps(v: Service, s: Step)
    requires Inv(v) && Enabled(v, s)
    ensures Inv(Do(v, s))
  {
    match s {
      case Invoke(clientId, kind, key, val) =>
        InvokeKeeps(v, clientId, kind, key, val);
      case Enter(x) =>
        EnterKeeps(v, x);
      case Move(server, n) =>
        hide AnswerOk;
        forall x | 0 <= x < |v.recs| ensures RecordOk(v.log, v.now + 1, v.recs[x]) {
          assert RecordOk(v.log, v.now, v.recs[x]);
        }
      case Reply(x, server) =>
        OwnEntry(v, x, v.covered[server]);
        assert RecordOk(v.log, v.now, v.recs[x]);
        UpdateKeeps(v, Do(v, s), x, Replied(v, x, server));
      case Return(x, answer) =>
        assert RecordOk(v.log, v.now, v.recs[x]);
        UpdateKeeps(v, Do(v, s), x, Returned(v, x, answer));
    }
  }

  ghost predicate IsRun(v: Service, run: seq<Step>)
    decreases |run|
  {
    run == [] || (Enabled(v, run[0]) && IsRun(Do(v, run[0]), run[1..]))
  }

  ghost function After(v: Service, run: seq<Step>): Service
    requires IsRun(v, run)
    decreases |run|
  {
    if run == [] then v else After(Do(v, run[0]), run[1..])
  }

  function Start(servers: nat): Service {
    Service([], [], map[], seq(servers, _ => 0), 0)
  }

  lemma {:induction false} RunKeeps(v: Service, run: seq<Step>)
    requires Inv(v) && IsRun(v, run)
    ensures Inv(After(v, run))
    decreases |run|
  {
    if run != [] {
      StepKeeps(v, run[0]);
      RunKeeps(Do(v, run[0]), run[1..]);
    }
  }

  // ---------------------------------------------------------------- the log is in order

  /** The clerks' numbering makes first occurrences come in order, whatever the servers submit again. */
  lemma LogInOrder(v: Service)
    requires Inv(v)
    ensures InOrder(v.log)
  {
    forall i, j | 0 <= i < |v.log| && 0 <= j < |v.log| && v.log[j].clientId == v.log[i].clientId
        && v.log[j].cmdId > v.log[i].cmdId
      ensures exists k :: 0 <= k < j && SameCommand(v.log[k], v.log[i])
    {
      EarlierEntered(v, i, j);
    }
  }

  lemma EarlierEntered(v: Service, i: nat, j: nat)
    requires Inv(v) && i < |v.log| && j < |v.log|
    requires v.log[j].clientId == v.log[i].clientId && v.log[j].cmdId > v.log[i].cmdId
    ensures exists k :: 0 <= k < j && SameCommand(v.log[k], v.log[i])
  {
    assert EntryOk(v.recs, i, v.log[i]) && EntryOk(v.recs, j, v.log[j]);
    var x :| 0 <= x < |v.recs| && v.recs[x].op == v.log[i] && v.recs[x].born <= i;
    var y :| 0 <= y < |v.recs| && v.recs[y].op == v.log[j] && v.recs[y].born <= j;
    assert y < x ==> Sequential(v.recs[y], v.recs[x]);
    assert x < y && Sequential(v.recs[x], v.recs[y]) && Later(v.recs[x], v.recs[y]);
    assert RecordOk(v.log, v.now, v.recs[x]);
    assert AnswerOk(v.log, v.recs[x].op, Answer(v.recs[x].prefix, v.recs[x].value));
    var k :| 0 <= k < v.recs[x].prefix && v.log[k] == v.recs[x].op;
    assert SameCommand(v.log[k], v.log[i]);
  }

  // ---------------------------------------------------------------- calls can return

  /** Whatever has happened, a pending call can enter the log, reach a server, be answered from there and return. */
  lemma CallCanReturn(v: Service, x: nat)
    requires x < |v.recs| && !v.recs[x].done && |v.covered| > 0
    ensures var n, op := |v.log| + 1, v.recs[x].op;
            var run := [Enter(x), Move(0, n), Reply(x, 0), Return(x, Answer(n, Read(v.log + [op], n, op.key)))];
            && IsRun(v, run) && x < |After(v, run).recs|
            && After(v, run).recs[x] == v.recs[x].(
                 answers := v.recs[x].answers + {Answer(n, Read(v.log + [op], n, op.key))}, done := true,
                 ret := v.now + 3, last := n, prefix := n, value := Read(v.log + [op], n, op.key))
  {
    var n, op := |v.log| + 1, v.recs[x].op;
    var answer := Answer(n, Read(v.log + [op], n, op.key));
    var run := [Enter(x), Move(0, n), Reply(x, 0), Return(x, answer)];
    var v1 := Do(v, run[0]);
    var v2 := Do(v1, run[1]);
    assert Seen(Fold(v2.log, n), op.clientId, op.cmdId);
    hide Fold, ApplyOp, Seen;
    assert Enabled(v2, run[2]);
    var v3 := Do(v2, run[2]);
    var v4 := Do(v3, run[3]);
    assert run[1..][0] == run[1] && run[2..][0] == run[2] && run[3..][0] == run[3];
    assert run[1..][1..] == run[2..] && run[2..][1..] == run[3..] && run[3..][1..] == [];
    assert IsRun(v4, []) && IsRun(v3, run[3..]) && IsRun(v2, run[2..]) && IsRun(v1, run[1..]);
    assert After(v1, run[1..]) == After(v2, run[2..]) == After(v3, run[3..]) == v4;
  }
}
