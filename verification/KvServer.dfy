/** The key/value server and the clerk, as objects updated in place. */
module KvServer {
  import opened RaftTypes
  import opened Locality
  import opened KvStore

  datatype DoneMsg = DoneMsg(clientId: nat, cmdId: nat)

  datatype Err = Ok | ErrNoKey | ErrFail

  /** What the stub of an index knows: nobody has applied it yet, or what was applied there. */
  type Stub = Option<DoneMsg>

  class KVServer {
    var kvdb: map<string, string>
    var dupMap: map<nat, nat>
    var applyStub: map<nat, Stub>
    const maxRaftState: int

    ghost function State(): Store
      reads this
    {
      Store(kvdb, dupMap)
    }

    /** Every message waiting in a stub is about a command the store has seen. */
    ghost predicate Valid()
      reads this
    {
      forall i :: i in applyStub && applyStub[i].Some? ==>
          Seen(State(), applyStub[i].value.clientId, applyStub[i].value.cmdId)
    }

    constructor (maxRaftState: int)
      ensures Valid() && State() == EMPTY && applyStub == map[] && this.maxRaftState == maxRaftState
    {
      kvdb, dupMap, applyStub := map[], map[], map[];
      this.maxRaftState := maxRaftState;
    }

    /** A command takes effect unless the client's table has it or a later one. */
    method Enact(op: Op)
      modifies this`kvdb, this`dupMap
      ensures State() == ApplyOp(old(State()), op)
    {
      if op.clientId !in dupMap || dupMap[op.clientId] < op.cmdId {
        if op.kind == Put {
          kvdb := kvdb[op.key := op.val];
        } else if op.kind == Append {
          kvdb := kvdb[op.key := Lookup(kvdb, op.key) + op.val];
        }
        dupMap := dupMap[op.clientId := op.cmdId];
      }
    }

    /** A command of the agreed log arrives; `stateSize` is the size of Raft's saved state. */
    method DealWithCommand(index: nat, op: Op, stateSize: int) returns (snapshot: Option<Store>)
      requires Valid()
      modifies this
      ensures Valid() && State() == ApplyOp(old(State()), op)
      ensures applyStub == old(applyStub)[index := Some(DoneMsg(op.clientId, op.cmdId))]
      ensures snapshot == if maxRaftState != -1 && stateSize >= maxRaftState then Some(State()) else None
    {
      SeenStays(State(), op);
      hide ApplyOp, Seen;
      Enact(op);
      if index !in applyStub {
        applyStub := applyStub[index := None];
      }
      // a message left over in the stub is dropped
      applyStub := applyStub[index := None];
      applyStub := applyStub[index := Some(DoneMsg(op.clientId, op.cmdId))];
      snapshot := None;
      if maxRaftState != -1 && stateSize >= maxRaftState {
        snapshot := Some(Store(kvdb, dupMap));
      }
    }

    /** A snapshot replaces the state, whatever the server had; the stubs stay true if it covers at least that. */
    method DealWithSnapshot(snapshot: Store)
      modifies this
      ensures State() == snapshot && applyStub == old(applyStub)
      ensures old(Valid()) && Covers(snapshot, old(State())) ==> Valid()
    {
      kvdb, dupMap := snapshot.db, snapshot.dup;
    }

    method SeenCmd(clientId: nat, cmdId: nat) returns (seen: bool)
      ensures seen <==> Seen(State(), clientId, cmdId)
    {
      seen := clientId in dupMap && cmdId <= dupMap[clientId];
    }

    /** A handler starts to wait at the index Raft gave its command. */
    method AwaitIndex(index: nat)
      requires Valid()
      modifies this
      ensures Valid() && State() == old(State()) && index in applyStub
      ensures applyStub == if index in old(applyStub) then old(applyStub) else old(applyStub)[index := None]
    {
      if index !in applyStub {
        applyStub := applyStub[index := None];
      }
    }

    /** The waiting handler finds a message: its own command succeeds, another's message is put back. */
    method TakeDone(index: nat, clientId: nat, cmdId: nat) returns (own: bool)
      requires Valid() && index in applyStub && applyStub[index].Some?
      modifies this
      ensures Valid() && State() == old(State())
      ensures own <==> old(applyStub[index]) == Some(DoneMsg(clientId, cmdId))
      ensures own ==> Seen(State(), clientId, cmdId)
      ensures applyStub == if own then old(applyStub) - {index} else old(applyStub)
    {
      var msg := applyStub[index].value;
      applyStub := applyStub[index := None];
      if msg.clientId == clientId && msg.cmdId == cmdId {
        applyStub := applyStub - {index};
        own := true;
      } else {
        applyStub := applyStub[index := Some(msg)];
        own := false;
      }
    }

    /** The end of the Get handler. */
    method AnswerGet(key: string, opDone: bool) returns (err: Err, value: string)
      ensures err == ErrFail <==> !opDone
      ensures opDone ==> (err == Ok <==> key in kvdb) && value == Lookup(kvdb, key)
    {
      err, value := ErrFail, "";
      if opDone {
        if key in kvdb {
          err, value := Ok, kvdb[key];
        } else {
          err := ErrNoKey;
        }
      }
    }
  }

  /** The end of the PutAppend handler. */
  function AnswerPutAppend(opDone: bool): Err {
    if opDone then Ok else ErrFail
  }

  /** `b` has seen everything `a` has. */
  ghost predicate Covers(b: Store, a: Store) {
    forall clientId, cmdId :: Seen(a, clientId, cmdId) ==> Seen(b, clientId, cmdId)
  }

  lemma SeenStays(s: Store, op: Op)
    ensures Covers(ApplyOp(s, op), s) && Seen(ApplyOp(s, op), op.clientId, op.cmdId)
  {
  }

  /** A longer prefix of the agreed log covers a shorter one, so installing a later snapshot loses nothing. */
  lemma {:induction false} LongerCovers(log: seq<Op>, m: nat, n: nat)
    requires m <= n <= |log|
    ensures Covers(Fold(log, n), Fold(log, m))
    decreases n
  {
    if m < n {
      LongerCovers(log, m, n - 1);
      SeenStays(Fold(log, n - 1), log[n - 1]);
      forall clientId, cmdId | Seen(Fold(log, m), clientId, cmdId) ensures Seen(Fold(log, n), clientId, cmdId) {
        assert Seen(Fold(log, n - 1), clientId, cmdId);
      }
    }
  }

  /**
   A snapshot of the first `m` commands that arrives after the server has applied
   `n` leaves it where it was exactly when none of the commands between had an
   effect; otherwise the server falls behind what it has been given.
   */
  lemma LateSnapshotHarmlessIff(log: seq<Op>, m: nat, n: nat)
    requires m <= n <= |log|
    ensures Fold(log, m) == Fold(log, n) <==> forall j :: m <= j < n ==> !Effective(log, j)
  {
    hide Fold;
    if forall j :: m <= j < n ==> !Effective(log, j) {
      NoEffect(log, m, n);
    } else {
      var j :| m <= j < n && Effective(log, j);
      EffectShows(log, m, j, n);
    }
  }

  /** A command that had an effect behind position `m` is in the table at `n` and not at `m`. */
  lemma EffectShows(log: seq<Op>, m: nat, j: nat, n: nat)
    requires m <= j < n <= |log| && Effective(log, j)
    ensures !Seen(Fold(log, m), log[j].clientId, log[j].cmdId) && Seen(Fold(log, n), log[j].clientId, log[j].cmdId)
  {
    LongerCovers(log, m, j);
    SeenStays(Fold(log, j), log[j]);
    assert Fold(log, j + 1) == ApplyOp(Fold(log, j), log[j]);
    hide Fold, Seen, ApplyOp;
    LongerCovers(log, j + 1, n);
  }

  lemma {:induction false} NoEffect(log: seq<Op>, m: nat, n: nat)
    requires m <= n <= |log| && forall j :: m <= j < n ==> !Effective(log, j)
    ensures Fold(log, m) == Fold(log, n)
    decreases n
  {
    if m < n {
      NoEffect(log, m, n - 1);
      assert !Effective(log, n - 1);
    }
  }

  // ---------------------------------------------------------------- the clerk

  /** How one attempt at a server went: lost, or answered. */
  datatype Outcome = Lost | Answered(wrongLeader: bool, err: Err, value: string)

  /** A read is accepted with a value or with the news that the key is not there, a write only with Ok. */
  predicate Accepted(o: Outcome, write: bool) {
    o.Answered? && (o.err == Ok || (!write && o.err == ErrNoKey))
  }

  predicate MovesOn(o: Outcome) {
    o.Lost? || o.wrongLeader
  }

  /** The first accepted outcome, or the number of outcomes. */
  function FirstAccepted(os: seq<Outcome>, write: bool): (k: nat)
    ensures k <= |os| && (k < |os| ==> Accepted(os[k], write)) && forall j :: 0 <= j < k ==> !Accepted(os[j], write)
    decreases |os|
  {
    if os == [] || Accepted(os[0], write) then 0 else 1 + FirstAccepted(os[1..], write)
  }

  /** How many attempts made the clerk turn to the next server. */
  function Turns(os: seq<Outcome>, n: nat): nat
    requires n <= |os|
  {
    if n == 0 then 0 else Turns(os, n - 1) + if MovesOn(os[n - 1]) then 1 else 0
  }

  /** That is how many of the first `n` attempts were lost or misdirected. */
  lemma {:induction false} TurnsAre(os: seq<Outcome>, n: nat)
    requires n <= |os|
    ensures Turns(os, n) == |set j | 0 <= j < n && (os[j].Lost? || os[j].wrongLeader)|
    decreases n
  {
    if n > 0 {
      TurnsAre(os, n - 1);
      var before := set j | 0 <= j < n - 1 && (os[j].Lost? || os[j].wrongLeader);
      var now := set j | 0 <= j < n && (os[j].Lost? || os[j].wrongLeader);
      if MovesOn(os[n - 1]) {
        assert now == before + {n - 1};
      } else {
        assert now == before;
      }
    }
  }

  lemma NoMultiple(k: int, n: nat)
    requires -(n as int) < k * n < n
    ensures k == 0
  {
    assert k >= 1 ==> (k - 1) * n >= 0;
    assert k <= -1 ==> (k + 1) * n <= 0;
  }

  lemma Remainder(x: nat, n: nat, q: nat, r: nat)
    requires n > 0 && x == q * n + r && r < n
    ensures x % n == r
  {
    assert x == x / n * n + x % n;
    assert (q - x / n) * n == x % n - r;
    NoMultiple(q - x / n, n);
  }

  /** Turning once more, modulo the number of servers. */
  lemma ModStep(x: nat, n: nat)
    requires n > 0
    ensures (x % n + 1) % n == (x + 1) % n
  {
    var q, r := x / n, x % n;
    assert x == q * n + r;
    if r + 1 < n {
      Remainder(x + 1, n, q, r + 1);
      Remainder(r + 1, n, 0, r + 1);
    } else {
      assert (q + 1) * n == q * n + n;
      Remainder(x + 1, n, q + 1, 0);
      Remainder(n, n, 1, 0);
    }
  }

  class Clerk {
    const servers: nat
    const clientId: nat
    var leadId: nat
    var nextSeq: nat

    ghost predicate Valid()
      reads this
    {
      leadId < servers
    }

    constructor (servers: nat, clientId: nat)
      requires servers > 0
      ensures Valid() && this.servers == servers && this.clientId == clientId && leadId == 0 && nextSeq == 0
    {
      this.servers, this.clientId, leadId, nextSeq := servers, clientId, 0, 0;
    }

    /**
     One call, as far as the outcomes `os` of its attempts go. All attempts carry
     the same number. Attempt `k` is the first with an answer the clerk returns
     with: `Ok`, or for a read the news that the key is missing. `result` stays
     missing while there is none. The clerk turns to the next server after each
     earlier attempt that was lost or reached a server that is not leader.
     */
    method Call(write: bool, os: seq<Outcome>) returns (cmdId: nat, result: Option<string>, ghost k: nat)
      requires Valid()
      modifies this
      ensures Valid() && cmdId == old(nextSeq) && nextSeq == old(nextSeq) + 1
      ensures k <= |os|
      ensures forall j :: 0 <= j < k && os[j].Answered? ==> os[j].err != Ok && (os[j].err == ErrNoKey ==> write)
      ensures k < |os| ==> os[k].Answered? && (os[k].err == Ok || (os[k].err == ErrNoKey && !write))
      ensures result == if k == |os| then None else Some(if os[k].err == Ok && !write then os[k].value else "")
      ensures leadId == (old(leadId) + |set j | 0 <= j < k && (os[j].Lost? || os[j].wrongLeader)|) % servers
    {
      cmdId := nextSeq;
      nextSeq := nextSeq + 1;
      result := None;
      k := FirstAccepted(os, write);
      TurnsAre(os, k);
      var i := 0;
      while i < |os|
        invariant i <= FirstAccepted(os, write) && i <= |os|
        invariant result == None && Valid() && nextSeq == old(nextSeq) + 1
        invariant leadId == (old(leadId) + Turns(os, i)) % servers
      {
        var o := os[i];
        if Accepted(o, write) {
          result := Some(if o.err == Ok && !write then o.value else "");
          return;
        }
        if MovesOn(o) {
          ModStep(old(leadId) + Turns(os, i), servers);
          leadId := (leadId + 1) % servers;
        }
        i := i + 1;
      }
    }
  }

  // ---------------------------------------------------------------- a clerk and a server

  /**
   A read answered by a server: it ends, with what the database has under the
   key, exactly if the operation was done there; otherwise the clerk keeps trying,
   at the next server exactly if this one is not leader.
   */
  method ReadFrom(ck: Clerk, kv: KVServer, key: string, isLeader: bool, opDone: bool) returns (result: Option<string>)
    requires ck.Valid()
    modifies ck
    ensures ck.Valid() && ck.nextSeq == old(ck.nextSeq) + 1
    ensures result == if opDone then Some(Lookup(kv.kvdb, key)) else None
    ensures ck.leadId == if opDone || isLeader then old(ck.leadId) else (old(ck.leadId) + 1) % ck.servers
  {
    var err, value := kv.AnswerGet(key, opDone);
    var os := [Answered(!isLeader, err, value)];
    ghost var k, turned;
    var cmdId;
    cmdId, result, k := ck.Call(false, os);
    turned := set j | 0 <= j < k && (os[j].Lost? || os[j].wrongLeader);
    assert turned == if opDone || isLeader then {} else {0};
  }

  /** A write answered by a server ends exactly if the operation was done there. */
  method WriteTo(ck: Clerk, isLeader: bool, opDone: bool) returns (done: bool)
    requires ck.Valid()
    modifies ck
    ensures ck.Valid() && ck.nextSeq == old(ck.nextSeq) + 1 && done == opDone
    ensures ck.leadId == if opDone || isLeader then old(ck.leadId) else (old(ck.leadId) + 1) % ck.servers
  {
    var os := [Answered(!isLeader, AnswerPutAppend(opDone), "")];
    ghost var k, turned;
    var cmdId, result;
    cmdId, result, k := ck.Call(true, os);
    turned := set j | 0 <= j < k && (os[j].Lost? || os[j].wrongLeader);
    assert turned == if opDone || isLeader then {} else {0};
    done := result.Some?;
  }
}
