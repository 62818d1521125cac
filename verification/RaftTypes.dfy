/** Entities shared by the Raft peers and the key/value service. */
module RaftTypes {

  datatype Option<+T> = None | Some(value: T)

  datatype OpKind = Get | Put | Append

  /** The command a key/value server hands to Raft. */
  datatype Op = Op(kind: OpKind, key: string, val: string, clientId: nat, cmdId: nat)

  /** The payload of a log entry; dummy and snapshot entries carry none. */
  datatype Command = NoCommand | Client(op: Op)

  datatype Entry = Entry(globalIndex: nat, term: nat, command: Command)

  /** The entry at index 0 of every log. */
  const DUMMY := Entry(0, 0, NoCommand)

  datatype Role = Follower | Candidate | Leader

  function Min(a: int, b: int): int { if a < b then a else b }

  function Max(a: int, b: int): int { if a > b then a else b }

  /** `a` and `b` both have at least `k` entries and share the first `k`. */
  predicate Agree(a: seq<Entry>, b: seq<Entry>, k: int) {
    k <= |a| && k <= |b| && forall i :: 0 <= i < k ==> a[i] == b[i]
  }

  /** More than half of `n` servers. */
  predicate Majority(q: set<nat>, n: nat) {
    (forall v :: v in q ==> v < n) && |q| > n / 2
  }

  lemma {:induction false} RangeSize(q: set<nat>, n: nat)
    requires forall v :: v in q ==> v < n
    ensures |q| <= n
    decreases n
  {
    if n == 0 {
      assert q == {};
    } else {
      RangeSize(q - {n - 1}, n - 1);
      assert q <= (q - {n - 1}) + {n - 1};
      if n - 1 in q {
        assert |q - {n - 1}| == |q| - 1;
      } else {
        assert q - {n - 1} == q;
      }
    }
  }

  /** Two majorities of the same servers share a member. */
  lemma QuorumsMeet(p: set<nat>, q: set<nat>, n: nat) returns (v: nat)
    requires Majority(p, n) && Majority(q, n)
    ensures v in p && v in q
  {
    if p * q == {} {
      assert |p + q| == |p| + |q|;
      RangeSize(p + q, n);
      assert false;
    }
    v :| v in p * q;
  }
}
