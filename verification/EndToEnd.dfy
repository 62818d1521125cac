/** The checker accepts every history of the service. */
module EndToEnd {
  import opened History
  import opened Entries
  import opened Locality
  import opened FanIn
  import opened KvLinear
  import S = KvService
  import C = KvCluster
  import L = KvClusterLinear

  /** Whether every call has returned. */
  ghost predicate Quiet(v: S.Service) {
    forall x :: 0 <= x < |v.recs| ==> v.recs[x].done
  }

  /** The recorded history of a quiet service: nothing but what the clerks saw. */
  lemma QuietHistory(v: S.Service)
    requires S.Inv(v) && Quiet(v)
    ensures forall x :: 0 <= x < |v.recs| ==>
              && HistoryOf(v)[x].call == v.recs[x].call && HistoryOf(v)[x].ret == v.recs[x].ret
              && HistoryOf(v)[x].input == InputOf(v.recs[x].op)
              && (v.recs[x].op.kind.Get? ==> HistoryOf(v)[x].output.value == v.recs[x].value)
    ensures forall x :: 0 <= x < |v.recs| ==> HistoryOf(v)[x].call < HistoryOf(v)[x].ret
    ensures NoTies(HistoryOf(v))
  {
    forall x | 0 <= x < |v.recs| ensures v.recs[x].call < v.recs[x].ret {
      assert S.RecordOk(v.log, v.now, v.recs[x]);
    }
    forall x, y | 0 <= x < |v.recs| && 0 <= y < |v.recs| ensures HistoryOf(v)[x].ret != HistoryOf(v)[y].call {
      assert S.Later(v.recs[x], v.recs[y]);
    }
  }

  /** With the searches run one after the other. */
  method AcceptQuietRun(h: KvHistory, ghost servers: nat, ghost run: seq<S.Step>) returns (ok: bool)
    requires S.IsRun(S.Start(servers), run)
    requires var v := S.After(S.Start(servers), run); Quiet(v) && h == HistoryOf(v) && h != []
    ensures ok
  {
    ghost var v := S.After(S.Start(servers), run);
    KvLinear.StartInv(servers);
    S.RunKeeps(S.Start(servers), run);
    QuietHistory(v);
    ServiceLinearizable(v);
    hide S.Inv, HistoryOf, Linearizable;
    ok := CheckKv(h);
  }

  /** With the searches on their own and the results in any order. */
  lemma QuietRunAccepted(servers: nat, run: seq<S.Step>, keys: seq<string>, steps: seq<Step>)
    requires S.IsRun(S.Start(servers), run)
    requires var v := S.After(S.Start(servers), run);
             Quiet(v) && forall key :: key in keys <==> key in KeysOf(HistoryOf(v))
    requires var h := HistoryOf(S.After(S.Start(servers), run));
             IsRun(Start(|keys|), steps, KV_MODEL, PartsOf(h, keys), false) && After(Start(|keys|), steps).stopped
    ensures After(Start(|keys|), steps).ok
  {
    var v := S.After(S.Start(servers), run);
    KvLinear.StartInv(servers);
    S.RunKeeps(S.Start(servers), run);
    QuietHistory(v);
    ServiceLinearizable(v);
    hide S.Inv, HistoryOf, Linearizable;
    KvVerdict(HistoryOf(v), keys, steps);
  }

  /** The checker accepts what the clerks of the whole cluster recorded, whatever order its results arrive in. */
  lemma ClusterRunAccepted(n: nat, run: seq<C.Event>, keys: seq<string>, steps: seq<Step>)
    requires n > 0 && C.IsRun(C.Start(n), run) && C.OrderlyRun(C.Start(n), run) && L.Finished(C.After(C.Start(n), run))
    requires forall key :: key in keys <==> key in KeysOf(L.Recorded(C.After(C.Start(n), run)))
    requires var h := L.Recorded(C.After(C.Start(n), run));
             IsRun(Start(|keys|), steps, KV_MODEL, PartsOf(h, keys), false) && After(Start(|keys|), steps).stopped
    ensures After(Start(|keys|), steps).ok
  {
    C.StartRan(n);
    hide C.IsRun, C.OrderlyRun, C.After, Linearizable, C.Peak, S.Inv, L.AgreedOps, IsRun, After, KeysOf, PartsOf,
        NoTies;
    var w := C.After(C.Start(n), run);
    var log := L.ClusterLinearizable(n, run);
    var h := L.Recorded(w);
    assert h == HistoryOf(L.View(w, log));
    QuietHistory(L.View(w, log));
    KvVerdict(h, keys, steps);
  }
}
