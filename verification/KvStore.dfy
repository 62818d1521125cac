/** The replicated state: the database, and the last command of each client that took effect. */
module KvStore {
  import opened RaftTypes
  import opened Locality

  datatype Store = Store(db: map<string, string>, dup: map<nat, nat>)

  const EMPTY := Store(map[], map[])

  /** The client's command, or a later one, has been recorded. */
  predicate Seen(s: Store, clientId: nat, cmdId: nat) {
    clientId in s.dup && cmdId <= s.dup[clientId]
  }

  function Write(db: map<string, string>, op: Op): map<string, string> {
    match op.kind
    case Get => db
    case Put => db[op.key := op.val]
    case Append => db[op.key := Lookup(db, op.key) + op.val]
  }

  /** A command of the agreed log reaches the store; one already seen changes nothing. */
  function ApplyOp(s: Store, op: Op): Store {
    if Seen(s, op.clientId, op.cmdId) then s
    else Store(Write(s.db, op), s.dup[op.clientId := op.cmdId])
  }

  /** The store after the first `n` commands of the agreed log. */
  function Fold(log: seq<Op>, n: nat): Store
    requires n <= |log|
  {
    if n == 0 then EMPTY else ApplyOp(Fold(log, n - 1), log[n - 1])
  }

  function ApplyAll(s: Store, ops: seq<Op>): Store
    decreases |ops|
  {
    if ops == [] then s else ApplyAll(ApplyOp(s, ops[0]), ops[1..])
  }

  // ---------------------------------------------------------------- what has been seen

  /** The client submitted this command or a later one before position `n`. */
  ghost predicate Reached(log: seq<Op>, n: nat, clientId: nat, cmdId: nat)
    requires n <= |log|
  {
    exists i :: 0 <= i < n && log[i].clientId == clientId && cmdId <= log[i].cmdId
  }

  lemma {:induction false} SeenIffReached(log: seq<Op>, n: nat, clientId: nat, cmdId: nat)
    requires n <= |log|
    ensures Seen(Fold(log, n), clientId, cmdId) <==> Reached(log, n, clientId, cmdId)
    decreases n
  {
    if n > 0 {
      SeenIffReached(log, n - 1, clientId, cmdId);
      var op := log[n - 1];
      if op.clientId == clientId {
        SeenIffReached(log, n - 1, clientId, op.cmdId);
      }
    }
  }

  lemma {:induction false} FoldPrefix(log: seq<Op>, log': seq<Op>, n: nat)
    requires n <= |log| <= |log'| && log'[..|log|] == log
    ensures Fold(log', n) == Fold(log, n)
    decreases n
  {
    if n > 0 {
      FoldPrefix(log, log', n - 1);
      assert log'[n - 1] == log'[..|log|][n - 1];
    }
  }

  /** Replaying commands that have been applied, in any order and any number of times, changes nothing. */
  lemma {:induction false} ReplayChangesNothing(log: seq<Op>, n: nat, again: seq<Op>)
    requires n <= |log| && forall j :: 0 <= j < |again| ==> again[j] in log[..n]
    ensures ApplyAll(Fold(log, n), again) == Fold(log, n)
    decreases |again|
  {
    if again != [] {
      var op := again[0];
      assert op in log[..n];
      var i :| 0 <= i < n && log[..n][i] == op;
      SeenIffReached(log, n, op.clientId, op.cmdId);
      assert Reached(log, n, op.clientId, op.cmdId) by {
        assert log[i] == op;
      }
      ReplayChangesNothing(log, n, again[1..]);
    }
  }

  // ---------------------------------------------------------------- exactly once

  predicate SameCommand(a: Op, b: Op) {
    a.clientId == b.clientId && a.cmdId == b.cmdId
  }

  /** The command at position `i` changes the store. */
  predicate Effective(log: seq<Op>, i: nat)
    requires i < |log|
  {
    !Seen(Fold(log, i), log[i].clientId, log[i].cmdId)
  }

  /** No command of the same client overtook this one: its first occurrence comes before any later command. */
  ghost predicate NotOvertaken(log: seq<Op>, i: nat)
    requires i < |log|
  {
    forall j :: 0 <= j < |log| && log[j].clientId == log[i].clientId && log[j].cmdId > log[i].cmdId ==>
      exists k :: 0 <= k < j && SameCommand(log[k], log[i])
  }

  ghost predicate InOrder(log: seq<Op>) {
    forall i :: 0 <= i < |log| ==> NotOvertaken(log, i)
  }

  ghost predicate TakesEffect(log: seq<Op>, i: nat)
    requires i < |log|
  {
    exists k :: 0 <= k < |log| && SameCommand(log[k], log[i]) && Effective(log, k)
  }

  /** No command takes effect twice. */
  lemma AtMostOnce(log: seq<Op>, i: nat, j: nat)
    requires i < j < |log| && SameCommand(log[i], log[j])
    ensures !Effective(log, j)
  {
    SeenIffReached(log, j, log[j].clientId, log[j].cmdId);
  }

  lemma {:induction false} FirstOccurrence(log: seq<Op>, i: nat) returns (k: nat)
    requires i < |log|
    ensures k <= i && SameCommand(log[k], log[i]) && forall j :: 0 <= j < k ==> !SameCommand(log[j], log[i])
    decreases i
  {
    if j: nat :| j < i && SameCommand(log[j], log[i]) {
      k := FirstOccurrence(log, j);
    } else {
      k := i;
    }
  }

  /** A command takes effect, and then exactly once, if and only if no later command of its client overtook it. */
  lemma OnceIffNotOvertaken(log: seq<Op>, i: nat)
    requires i < |log|
    ensures TakesEffect(log, i) <==> NotOvertaken(log, i)
  {
    var f := FirstOccurrence(log, i);
    SeenIffReached(log, f, log[i].clientId, log[i].cmdId);
    if NotOvertaken(log, i) {
      assert !Reached(log, f, log[i].clientId, log[i].cmdId);
      assert Effective(log, f);
    }
    if TakesEffect(log, i) {
      var k :| 0 <= k < |log| && SameCommand(log[k], log[i]) && Effective(log, k);
      assert k == f by {
        if f < k {
          AtMostOnce(log, f, k);
        }
      }
      forall j | 0 <= j < |log| && log[j].clientId == log[i].clientId && log[j].cmdId > log[i].cmdId
        ensures exists k :: 0 <= k < j && SameCommand(log[k], log[i])
      {
        assert j >= f;
      }
    }
  }

  /** Two commands of one client in the wrong order: the earlier one is lost. */
  const SWAPPED := [Op(Put, "k", "new", 7, 2), Op(Put, "k", "old", 7, 1)]

  lemma OvertakenIsLost()
    ensures !InOrder(SWAPPED) && !TakesEffect(SWAPPED, 1)
  {
    assert SWAPPED[0].cmdId > SWAPPED[1].cmdId;
    assert !NotOvertaken(SWAPPED, 1);
    OnceIffNotOvertaken(SWAPPED, 1);
  }

  /** Position `i` is the first occurrence of its command. */
  ghost predicate First(log: seq<Op>, i: nat)
    requires i < |log|
  {
    forall j :: 0 <= j < i ==> !SameCommand(log[j], log[i])
  }

  /** In an in-order log, exactly the first occurrences are effective. */
  lemma FirstsAreEffective(log: seq<Op>, i: nat)
    requires InOrder(log) && i < |log|
    ensures Effective(log, i) <==> First(log, i)
  {
    SeenIffReached(log, i, log[i].clientId, log[i].cmdId);
    assert NotOvertaken(log, i);
    if !First(log, i) {
      var j :| 0 <= j < i && SameCommand(log[j], log[i]);
    }
  }

  /** The database that plain execution of the first occurrences builds, without a duplicate table. */
  ghost function OnceEach(log: seq<Op>, n: nat): map<string, string>
    requires n <= |log|
  {
    if n == 0 then map[]
    else if First(log, n - 1) then Write(OnceEach(log, n - 1), log[n - 1])
    else OnceEach(log, n - 1)
  }

  /** With in-order first occurrences, the store is what executing each command once gives. */
  lemma {:induction false} FoldIsOnceEach(log: seq<Op>, n: nat)
    requires InOrder(log) && n <= |log|
    ensures Fold(log, n).db == OnceEach(log, n)
    decreases n
  {
    if n > 0 {
      FoldIsOnceEach(log, n - 1);
      FirstsAreEffective(log, n - 1);
    }
  }
}
