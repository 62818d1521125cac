/**
 Collecting the verdicts: one search per part runs on its own, results arrive
 in any order, the first failure sets the kill flag and ends the collection.
 */
module FanIn {
  import opened History
  import opened Entries
  import opened Locality
  import opened CheckHistory

  datatype Worker = Searching | Offering(result: bool) | Collected(result: bool)

  datatype Fan = Fan(workers: seq<Worker>, kill: bool, ok: bool, count: nat, stopped: bool)

  datatype Step =
    | Finish(i: nat, result: bool)
    | Collect(i: nat)
    | Expire

  function Start(n: nat): Fan {
    Fan(seq(n, _ => Searching), false, true, 0, false)
  }

  /** One search per part of `parts` under the model `m`; `timed` says whether a timeout was asked for. */
  ghost predicate Enabled<S, I, O>(
    f: Fan, s: Step, m: Model<S, I, O>, parts: seq<seq<Operation<I, O>>>, timed: bool) {
    match s
    case Finish(i, result) =>
      i < |f.workers| == |parts| && f.workers[i].Searching? && Promised(m, parts[i], result, f.kill)
    case Collect(i) => !f.stopped && i < |f.workers| && f.workers[i].Offering?
    case Expire => !f.stopped && timed
  }

  function Do(f: Fan, s: Step): Fan {
    match s
    case Finish(i, result) => if i < |f.workers| then f.(workers := f.workers[i := Offering(result)]) else f
    case Collect(i) =>
      if i >= |f.workers| || !f.workers[i].Offering? then f
      else
        var result := f.workers[i].result;
        var ok, workers := f.ok && result, f.workers[i := Collected(result)];
        if !ok then Fan(workers, true, ok, f.count, true)
        else Fan(workers, f.kill, ok, f.count + 1, f.count + 1 >= |f.workers|)
    case Expire => f.(stopped := true)
  }

  ghost predicate IsRun<S, I, O>(
    f: Fan, run: seq<Step>, m: Model<S, I, O>, parts: seq<seq<Operation<I, O>>>, timed: bool)
    decreases |run|
  {
    run == [] || (Enabled(f, run[0], m, parts, timed) && IsRun(Do(f, run[0]), run[1..], m, parts, timed))
  }

  function After(f: Fan, run: seq<Step>): Fan
    decreases |run|
  {
    if run == [] then f else After(Do(f, run[0]), run[1..])
  }

  function CollectedCount(workers: seq<Worker>): nat {
    if workers == [] then 0 else CollectedCount(workers[1..]) + (if workers[0].Collected? then 1 else 0)
  }

  lemma {:induction false} CountUpdate(workers: seq<Worker>, i: nat, w: Worker)
    requires i < |workers| && !workers[i].Collected?
    ensures CollectedCount(workers[i := w]) == CollectedCount(workers) + if w.Collected? then 1 else 0
    decreases |workers|
  {
    if i > 0 {
      CountUpdate(workers[1..], i - 1, w);
      assert workers[i := w][1..] == workers[1..][i - 1 := w];
    } else {
      assert workers[i := w][1..] == workers[1..];
    }
  }

  lemma {:induction false} CountBound(workers: seq<Worker>)
    ensures CollectedCount(workers) <= |workers|
    ensures CollectedCount(workers) == |workers| <==> forall i :: 0 <= i < |workers| ==> workers[i].Collected?
  {
    if workers != [] {
      CountBound(workers[1..]);
      assert forall i :: 0 <= i < |workers| ==> workers[i] == if i == 0 then workers[0] else workers[1..][i - 1];
      assert forall i :: 0 <= i < |workers| - 1 ==> workers[1..][i] == workers[i + 1];
    }
  }

  lemma {:induction false} CountStart(n: nat)
    ensures CollectedCount(Start(n).workers) == 0
  {
    if n > 0 {
      CountStart(n - 1);
      assert Start(n).workers[1..] == Start(n - 1).workers;
    }
  }

  ghost predicate SomeFails<S, I, O>(m: Model<S, I, O>, parts: seq<seq<Operation<I, O>>>) {
    exists i :: 0 <= i < |parts| && !Linearizable(m, parts[i])
  }

  predicate Untied<I, O>(parts: seq<seq<Operation<I, O>>>) {
    forall i :: 0 <= i < |parts| ==> NoTies(parts[i])
  }

  /** The flag is set only by the failure that ends the collection, so nothing collected is tainted by it. */
  ghost predicate Inv<S, I, O>(f: Fan, m: Model<S, I, O>, parts: seq<seq<Operation<I, O>>>, timed: bool) {
    && |f.workers| == |parts|
    && (f.kill ==> !f.ok) && (!f.ok ==> f.stopped && (Untied(parts) ==> SomeFails(m, parts)))
    && (forall i :: 0 <= i < |parts| && !f.workers[i].Searching? ==> Promised(m, parts[i], f.workers[i].result, f.kill))
    && (f.ok ==> f.count == CollectedCount(f.workers))
    && (f.ok ==> forall i :: 0 <= i < |parts| && f.workers[i].Collected? ==> f.workers[i].result)
    && (f.ok && f.stopped && !timed ==> f.count >= |parts| > 0)
    && (f.ok && !f.stopped ==> f.count < |parts| || |parts| == 0)
  }

  lemma StartInv<S, I, O>(m: Model<S, I, O>, parts: seq<seq<Operation<I, O>>>, timed: bool)
    ensures Inv(Start(|parts|), m, parts, timed)
  {
    CountStart(|parts|);
  }

  lemma StepInv<S, I, O>(f: Fan, s: Step, m: Model<S, I, O>, parts: seq<seq<Operation<I, O>>>, timed: bool)
    requires Inv(f, m, parts, timed) && Enabled(f, s, m, parts, timed)
    ensures Inv(Do(f, s), m, parts, timed)
  {
    hide Linearizable, NoTies;
    match s
    case Finish(i, result) =>
      CountUpdate(f.workers, i, Offering(result));
    case Collect(i) =>
      CountUpdate(f.workers, i, Collected(f.workers[i].result));
    case Expire =>
  }

  lemma {:induction false} RunInv<S, I, O>(
    f: Fan, run: seq<Step>, m: Model<S, I, O>, parts: seq<seq<Operation<I, O>>>, timed: bool)
    requires Inv(f, m, parts, timed) && IsRun(f, run, m, parts, timed)
    ensures Inv(After(f, run), m, parts, timed)
    decreases |run|
  {
    hide Inv, Enabled;
    if run != [] {
      StepInv(f, run[0], m, parts, timed);
      RunInv(Do(f, run[0]), run[1..], m, parts, timed);
    }
  }

  /** What the parts must be like when a run ends as `f`. */
  lemma VerdictFrom<S, I, O>(f: Fan, m: Model<S, I, O>, parts: seq<seq<Operation<I, O>>>, timed: bool)
    requires Inv(f, m, parts, timed)
    ensures !f.ok && Untied(parts) ==> SomeFails(m, parts)
    ensures f.stopped && f.ok && !timed ==> !SomeFails(m, parts)
  {
    hide Linearizable, NoTies;
    CountBound(f.workers);
    if f.stopped && f.ok && !timed {
      forall i | 0 <= i < |parts| ensures Linearizable(m, parts[i]) {
        assert f.workers[i].Collected? && Promised(m, parts[i], f.workers[i].result, f.kill);
      }
    }
  }

  /** Whether the verdict of `f` says that all parts pass. */
  ghost predicate Exact<S, I, O>(f: Fan, m: Model<S, I, O>, parts: seq<seq<Operation<I, O>>>) {
    f.ok <==> !SomeFails(m, parts)
  }

  /** In every run, with or without a timeout, a false verdict on parts without ties comes from a part that fails. */
  lemma FalseIsGenuine<S, I, O>(run: seq<Step>, m: Model<S, I, O>, parts: seq<seq<Operation<I, O>>>, timed: bool)
    requires IsRun(Start(|parts|), run, m, parts, timed) && Untied(parts)
    ensures !After(Start(|parts|), run).ok ==> SomeFails(m, parts)
  {
    hide Inv, SomeFails;
    StartInv(m, parts, timed);
    RunInv(Start(|parts|), run, m, parts, timed);
    VerdictFrom(After(Start(|parts|), run), m, parts, timed);
  }

  /** Without a timeout a true verdict is right, ties or not, and without ties the verdict is exact. */
  lemma VerdictIsExact<S, I, O>(run: seq<Step>, m: Model<S, I, O>, parts: seq<seq<Operation<I, O>>>)
    requires IsRun(Start(|parts|), run, m, parts, false) && After(Start(|parts|), run).stopped
    ensures After(Start(|parts|), run).ok ==> !SomeFails(m, parts)
    ensures Untied(parts) ==> Exact(After(Start(|parts|), run), m, parts)
  {
    hide Inv, SomeFails;
    StartInv(m, parts, false);
    RunInv(Start(|parts|), run, m, parts, false);
    VerdictFrom(After(Start(|parts|), run), m, parts, false);
  }

  /** Every finished run gives the exact verdict. */
  ghost predicate AlwaysExact<S, I, O>(m: Model<S, I, O>, parts: seq<seq<Operation<I, O>>>, timed: bool) {
    forall run :: IsRun(Start(|parts|), run, m, parts, timed) && After(Start(|parts|), run).stopped ==>
      Exact(After(Start(|parts|), run), m, parts)
  }

  /** Asking for a timeout gives up the verdict exactly when a part fails: it may not have reported in time. */
  lemma ExactIff<S, I, O>(m: Model<S, I, O>, parts: seq<seq<Operation<I, O>>>, timed: bool)
    requires Untied(parts)
    ensures AlwaysExact(m, parts, timed) <==> !timed || !SomeFails(m, parts)
  {
    hide Inv, SomeFails, Untied, IsRun;
    if !timed || !SomeFails(m, parts) {
      forall run | IsRun(Start(|parts|), run, m, parts, timed) && After(Start(|parts|), run).stopped
        ensures Exact(After(Start(|parts|), run), m, parts)
      {
        FalseIsGenuine(run, m, parts, timed);
        if !timed {
          VerdictIsExact(run, m, parts);
        }
      }
    } else {
      ExpireAtOnce(m, parts);
    }
  }

  /** A timeout can end the collection before any part reports. */
  lemma ExpireAtOnce<S, I, O>(m: Model<S, I, O>, parts: seq<seq<Operation<I, O>>>)
    ensures IsRun(Start(|parts|), [Expire], m, parts, true)
    ensures var f := After(Start(|parts|), [Expire]); f.stopped && f.ok
  {
    assert [Expire][1..] == [] && [Expire][0] == Expire;
  }

  // ---------------------------------------------------------------- the collection can always go on to its end

  /** How many steps the searches have before them. */
  function Work(workers: seq<Worker>): nat {
    if workers == [] then 0
    else Work(workers[1..]) + match workers[0] case Searching => 2 case Offering(_) => 1 case Collected(_) => 0
  }

  lemma {:induction false} LessWork(workers: seq<Worker>, i: nat, w: Worker)
    requires i < |workers|
    requires (workers[i].Searching? && w.Offering?) || (workers[i].Offering? && w.Collected?)
    ensures Work(workers[i := w]) < Work(workers)
    decreases |workers|
  {
    if i > 0 {
      LessWork(workers[1..], i - 1, w);
      assert workers[i := w][1..] == workers[1..][i - 1 := w];
    } else {
      assert workers[i := w][1..] == workers[1..];
    }
  }

  /** A search that answers rightly keeps its promise. */
  lemma RightAnswer<S, I, O>(m: Model<S, I, O>, h: seq<Operation<I, O>>, killed: bool)
    ensures Promised(m, h, Linearizable(m, h), killed)
  {
  }

  /** While the collection goes on, some search can end or some result can be collected. */
  lemma NextStep<S, I, O>(f: Fan, m: Model<S, I, O>, parts: seq<seq<Operation<I, O>>>, timed: bool) returns (s: Step)
    requires Inv(f, m, parts, timed) && |parts| > 0 && !f.stopped
    ensures Enabled(f, s, m, parts, timed) && !s.Expire? && Work(Do(f, s).workers) < Work(f.workers)
  {
    hide Linearizable, NoTies;
    CountBound(f.workers);
    var i :| 0 <= i < |f.workers| && !f.workers[i].Collected?;
    if f.workers[i].Searching? {
      RightAnswer(m, parts[i], f.kill);
      s := Finish(i, Linearizable(m, parts[i]));
      LessWork(f.workers, i, Offering(s.result));
    } else {
      s := Collect(i);
      LessWork(f.workers, i, Collected(f.workers[i].result));
    }
  }

  lemma {:induction false} Finishing<S, I, O>(f: Fan, m: Model<S, I, O>, parts: seq<seq<Operation<I, O>>>, timed: bool)
    returns (run: seq<Step>)
    requires Inv(f, m, parts, timed) && |parts| > 0
    ensures IsRun(f, run, m, parts, timed) && After(f, run).stopped && forall k :: 0 <= k < |run| ==> !run[k].Expire?
    decreases Work(f.workers)
  {
    hide Inv, Enabled, Work, Do;
    if f.stopped {
      run := [];
    } else {
      var s := NextStep(f, m, parts, timed);
      StepInv(f, s, m, parts, timed);
      var more := Finishing(Do(f, s), m, parts, timed);
      run := [s] + more;
      assert run[1..] == more;
    }
  }

  /** With a part to search, every run can be carried on to its end without the timeout: the collection never hangs. */
  lemma StillWaiting<S, I, O>(run: seq<Step>, m: Model<S, I, O>, parts: seq<seq<Operation<I, O>>>, timed: bool)
    returns (more: seq<Step>)
    requires |parts| > 0 && IsRun(Start(|parts|), run, m, parts, timed)
    ensures IsRun(After(Start(|parts|), run), more, m, parts, timed) && forall k :: 0 <= k < |more| ==> !more[k].Expire?
    ensures After(After(Start(|parts|), run), more).stopped
  {
    StartInv(m, parts, timed);
    RunInv(Start(|parts|), run, m, parts, timed);
    more := Finishing(After(Start(|parts|), run), m, parts, timed);
  }

  /** Without parts and without a timeout, the collection never ends. */
  lemma NothingToWaitFor<S, I, O>(run: seq<Step>, m: Model<S, I, O>)
    requires IsRun(Start(0), run, m, [], false)
    ensures !After(Start(0), run).stopped
  {
    StartInv(m, [], false);
    RunInv(Start(0), run, m, [], false);
    if SomeFails(m, []) {
      assert false;
    }
  }

  // ---------------------------------------------------------------- the whole checker

  lemma PartWellFormed(h: KvHistory, key: string)
    requires forall i :: 0 <= i < |h| ==> h[i].call < h[i].ret
    ensures forall i :: 0 <= i < |Project(h, key, |h|)| ==> Project(h, key, |h|)[i].call < Project(h, key, |h|)[i].ret
    ensures NoTies(h) ==> NoTies(Project(h, key, |h|))
  {
    WhereAre(h, key, |h|);
    var part, w := Project(h, key, |h|), Where(h, key, |h|);
    if NoTies(h) {
      forall i, j | 0 <= i < |part| && 0 <= j < |part| ensures part[i].ret != part[j].call {
        assert part[i] == h[w[i]] && part[j] == h[w[j]];
      }
    }
  }

  /** The parts that the searches get: what `h` does to each key. */
  function PartsOf(h: KvHistory, keys: seq<string>): seq<KvHistory> {
    seq(|keys|, i requires 0 <= i < |keys| => Project(h, keys[i], |h|))
  }

  /** Some part fails exactly when the whole history does. */
  lemma PartsDecide(h: KvHistory, keys: seq<string>)
    requires forall i :: 0 <= i < |h| ==> h[i].call < h[i].ret
    requires forall key :: key in keys <==> key in KeysOf(h)
    ensures SomeFails(KV_MODEL, PartsOf(h, keys)) <==> !Linearizable(MAP_MODEL, h)
    ensures NoTies(h) ==> Untied(PartsOf(h, keys))
  {
    hide Linearizable, Project, KeysOf, NoTies;
    PartitionIsSound(h);
    var parts := PartsOf(h, keys);
    forall i | 0 <= i < |parts| ensures NoTies(h) ==> NoTies(parts[i]) {
      PartWellFormed(h, keys[i]);
    }
    if !SomeFails(KV_MODEL, parts) {
      forall key | key in KeysOf(h) ensures Linearizable(KV_MODEL, Project(h, key, |h|)) {
        assert key in keys;
        var i :| 0 <= i < |keys| && keys[i] == key;
        assert Linearizable(KV_MODEL, parts[i]);
      }
    } else {
      var i :| 0 <= i < |parts| && !Linearizable(KV_MODEL, parts[i]);
      assert keys[i] in keys && keys[i] in KeysOf(h);
    }
  }

  /**
   Whatever order the results arrive in: a finished collection that says yes is
   right, and for a history without ties it says whether that is linearizable.
   */
  lemma KvVerdict(h: KvHistory, keys: seq<string>, run: seq<Step>)
    requires forall i :: 0 <= i < |h| ==> h[i].call < h[i].ret
    requires forall key :: key in keys <==> key in KeysOf(h)
    requires IsRun(Start(|keys|), run, KV_MODEL, PartsOf(h, keys), false) && After(Start(|keys|), run).stopped
    ensures After(Start(|keys|), run).ok ==> Linearizable(MAP_MODEL, h)
    ensures NoTies(h) ==> (After(Start(|keys|), run).ok <==> Linearizable(MAP_MODEL, h))
  {
    hide Linearizable, KeysOf, IsRun, After, NoTies, SomeFails, Untied;
    PartsDecide(h, keys);
    VerdictIsExact(run, KV_MODEL, PartsOf(h, keys));
  }

  /** The checker with the searches run one after the other. */
  method CheckKv(h: KvHistory) returns (ok: bool)
    requires h != [] && forall i :: 0 <= i < |h| ==> h[i].call < h[i].ret
    ensures ok ==> Linearizable(MAP_MODEL, h)
    ensures NoTies(h) && !ok ==> !Linearizable(MAP_MODEL, h)
  {
    hide Linearizable, Project, KeysOf, NoTies;
    PartitionIsSound(h);
    var parts, keys := Partition(h);
    for i := 0 to |parts|
      invariant forall j :: 0 <= j < i ==> Linearizable(KV_MODEL, Project(h, keys[j], |h|))
    {
      PartWellFormed(h, keys[i]);
      var pass, _ := CheckOperations(KV_MODEL, parts[i], _ => false);
      if !pass {
        assert keys[i] in keys && keys[i] in KeysOf(h);
        return false;
      }
    }
    forall key | key in KeysOf(h) ensures Linearizable(KV_MODEL, Project(h, key, |h|)) {
      assert key in keys;
    }
    ok := true;
  }
}
