/** The observation engine: concurrent or serial collection into slots, then one merge
    (`internal/observe/engine.go`). */
module Observe {
  import opened Results
  import opened Json

  datatype Diagnostic = Diagnostic(severity: string, message: string, provider: string, code: string)

  datatype Fragment = Fragment(signals: Option<Object>, diagnostics: seq<Diagnostic>, degraded: bool)

  datatype Collected = Failed(message: string) | Returned(frag: Fragment)

  /** One entry of the shared result slice. */
  datatype Slot = Slot(id: string, result: Collected)

  const ZERO_SLOT := Slot("", Returned(Fragment(None, [], false)))

  const PROVIDER_FAILED := "provider_failed"
  const PROVIDER_DEGRADED := "provider_degraded"

  /** One collect run: the enabled ids in order, the ids the engine has a provider for, and what the provider
      call made for each position returns. */
  datatype Job = Job(enabled: seq<string>, known: set<string>, calls: seq<Collected>)

  predicate WellFormed(job: Job) {
    |job.calls| == |job.enabled|
  }

  function SlotOf(job: Job, i: nat): Slot
    requires WellFormed(job) && i < |job.enabled|
  {
    Slot(job.enabled[i], if job.enabled[i] in job.known then job.calls[i] else Failed("unknown provider"))
  }

  function Slots(job: Job): (slots: seq<Slot>)
    requires WellFormed(job)
    ensures |slots| == |job.enabled| && forall i :: 0 <= i < |slots| ==> slots[i] == SlotOf(job, i)
  {
    seq(|job.enabled|, i requires 0 <= i < |job.enabled| => SlotOf(job, i))
  }

  // ---------------------------------------------------------------- serial collection

  /** The serial branch: one provider after the other. */
  method CollectSerial(job: Job) returns (results: array<Slot>)
    requires WellFormed(job)
    ensures fresh(results) && results[..] == Slots(job)
  {
    results := new Slot[|job.enabled|](i => ZERO_SLOT);
    for i := 0 to |job.enabled|
      invariant forall j :: 0 <= j < i ==> results[j] == SlotOf(job, j)
    {
      var id := job.enabled[i];
      if id !in job.known {
        results[i] := Slot(id, Failed("unknown provider"));
        continue;
      }
      results[i] := Slot(id, job.calls[i]);
    }
  }

  // ---------------------------------------------------------------- concurrent collection

  /** The concurrent branch: `launched` positions have been visited by the spawning loop, the goroutines of
      `running` have not stored their result yet. */
  datatype Threads = Threads(launched: nat, running: set<nat>, results: seq<Slot>)

  datatype Step = Launch | Store(i: nat)

  function Start(job: Job): Threads {
    Threads(0, {}, seq(|job.enabled|, i => ZERO_SLOT))
  }

  /** The spawning loop visits the next position, storing at once for an unknown provider; or a running
      goroutine stores its own slot. */
  function Apply(job: Job, t: Threads, step: Step): Option<Threads>
    requires WellFormed(job)
  {
    match step
    case Launch =>
      if t.launched >= |job.enabled| || |t.results| != |job.enabled| then None
      else if job.enabled[t.launched] in job.known then
        Some(t.(launched := t.launched + 1, running := t.running + {t.launched}))
      else
        Some(t.(launched := t.launched + 1, results := t.results[t.launched := SlotOf(job, t.launched)]))
    case Store(i) =>
      if i !in t.running || i >= |t.results| || i >= |job.enabled| then None
      else Some(t.(running := t.running - {i}, results := t.results[i := SlotOf(job, i)]))
  }

  /** The wait at the end returns: every position visited and no goroutine running. */
  predicate Finished(job: Job, t: Threads) {
    t.launched == |job.enabled| && t.running == {}
  }

  ghost predicate IsSchedule(job: Job, states: seq<Threads>, steps: seq<Step>)
    requires WellFormed(job)
  {
    && |states| == |steps| + 1 && states[0] == Start(job)
    && forall k :: 0 <= k < |steps| ==> Apply(job, states[k], steps[k]) == Some(states[k + 1])
  }

  ghost predicate ThreadsInv(job: Job, t: Threads)
    requires WellFormed(job)
  {
    && t.launched <= |job.enabled| == |t.results|
    && (forall i :: i in t.running ==> i < t.launched && job.enabled[i] in job.known)
    && (forall i :: 0 <= i < t.launched && i !in t.running ==> t.results[i] == SlotOf(job, i))
  }

  lemma {:induction false} ScheduleInv(job: Job, states: seq<Threads>, steps: seq<Step>, n: nat)
    requires WellFormed(job) && IsSchedule(job, states, steps) && n <= |steps|
    ensures ThreadsInv(job, states[n])
  {
    if n > 0 {
      ScheduleInv(job, states, steps, n - 1);
      assert Apply(job, states[n - 1], steps[n - 1]) == Some(states[n]);
      StepInv(job, states[n - 1], steps[n - 1], states[n]);
    }
  }

  lemma StepInv(job: Job, t: Threads, step: Step, t': Threads)
    requires WellFormed(job) && ThreadsInv(job, t) && Apply(job, t, step) == Some(t')
    ensures ThreadsInv(job, t')
  {
  }

  /** Every complete interleaving leaves exactly the serial result. */
  lemma ScheduleIndependent(job: Job, states: seq<Threads>, steps: seq<Step>)
    requires WellFormed(job) && IsSchedule(job, states, steps) && Finished(job, states[|steps|])
    ensures states[|steps|].results == Slots(job)
  {
    ScheduleInv(job, states, steps, |steps|);
  }

  /** No interleaving can get stuck: until the wait returns, the loop or some goroutine can move. */
  lemma NeverStuck(job: Job, states: seq<Threads>, steps: seq<Step>)
    requires WellFormed(job) && IsSchedule(job, states, steps) && !Finished(job, states[|steps|])
    ensures exists step :: Apply(job, states[|steps|], step).Some?
  {
    ScheduleInv(job, states, steps, |steps|);
    var t := states[|steps|];
    if t.launched < |job.enabled| {
      assert Apply(job, t, Launch).Some?;
    } else {
      var i := SomeRunning(t.running);
      assert Apply(job, t, Store(i)).Some?;
    }
  }

  lemma SomeRunning(running: set<nat>) returns (i: nat)
    requires running != {}
    ensures i in running
  {
    i :| i in running;
  }

  /** Slots are disjoint: a step stores at one position only, and never at one stored before. */
  lemma StoresOnce(job: Job, states: seq<Threads>, steps: seq<Step>, i: nat)
    requires WellFormed(job) && |steps| > 0 && IsSchedule(job, states, steps) && i < |job.enabled|
    ensures var t, t' := states[|steps| - 1], states[|steps|];
            |t.results| == |t'.results| == |job.enabled| &&
            (i < t.launched && i !in t.running ==> t'.results[i] == t.results[i] && i !in t'.running)
  {
    ScheduleInv(job, states, steps, |steps| - 1);
    ScheduleInv(job, states, steps, |steps|);
    assert Apply(job, states[|steps| - 1], steps[|steps| - 1]) == Some(states[|steps|]);
  }

  /** Remaining work: every step lowers it, so no schedule runs for ever. */
  function Remaining(job: Job, t: Threads): int {
    2 * (|job.enabled| - t.launched) + |t.running|
  }

  lemma StepsDecrease(job: Job, t: Threads, step: Step, t': Threads)
    requires WellFormed(job) && ThreadsInv(job, t) && Apply(job, t, step) == Some(t')
    ensures 0 <= Remaining(job, t') < Remaining(job, t)
  {
    StepInv(job, t, step, t');
  }

  /** No schedule has more than two steps per provider. */
  lemma {:induction false} ScheduleBounded(job: Job, states: seq<Threads>, steps: seq<Step>, n: nat)
    requires WellFormed(job) && IsSchedule(job, states, steps) && n <= |steps|
    ensures n + Remaining(job, states[n]) <= 2 * |job.enabled| && Remaining(job, states[n]) >= 0
  {
    if n > 0 {
      ScheduleBounded(job, states, steps, n - 1);
      ScheduleInv(job, states, steps, n - 1);
      assert Apply(job, states[n - 1], steps[n - 1]) == Some(states[n]);
      StepsDecrease(job, states[n - 1], steps[n - 1], states[n]);
    }
  }

  // ---------------------------------------------------------------- merge

  datatype Merged = Merged(signals: Object, diags: seq<Diagnostic>, degraded: bool)

  /** The diagnostics one slot contributes. */
  function SlotDiagnostics(r: Slot): seq<Diagnostic> {
    match r.result
    case Failed(message) => [Diagnostic("error", message, r.id, PROVIDER_FAILED)]
    case Returned(frag) =>
      (if frag.degraded
       then [Diagnostic("warning", "provider returned degraded partial data", r.id, PROVIDER_DEGRADED)]
       else []) + frag.diagnostics
  }

  /** The provider failed or returned partial data. */
  predicate Impaired(r: Slot) {
    r.result.Failed? || r.result.frag.degraded
  }

  function AllDiagnostics(results: seq<Slot>): seq<Diagnostic> {
    if results == [] then [] else SlotDiagnostics(results[0]) + AllDiagnostics(results[1..])
  }

  predicate AnyImpaired(results: seq<Slot>) {
    exists i :: 0 <= i < |results| && Impaired(results[i])
  }

  predicate HasSignals(r: Slot) {
    r.result.Returned? && r.result.frag.signals.Some?
  }

  /** Slot `i` is the last one of provider `id` that has signals. */
  ghost predicate Decides(results: seq<Slot>, id: string, i: int) {
    && 0 <= i < |results| && results[i].id == id && HasSignals(results[i])
    && forall j :: i < j < |results| && results[j].id == id ==> !HasSignals(results[j])
  }

  /** Merged signals: each provider's last slot with signals decides, and nothing else appears. */
  ghost predicate SignalsMerged(results: seq<Slot>, signals: Object) {
    && (forall id :: id in signals ==> exists i :: Decides(results, id, i))
    && (forall id, i :: Decides(results, id, i) ==>
          id in signals && signals[id] == Obj(results[i].result.frag.signals.value))
  }

  function SignalsOf(results: seq<Slot>): Object {
    if results == [] then map[]
    else
      var last := results[|results| - 1];
      var before := SignalsOf(results[..|results| - 1]);
      if HasSignals(last) then before[last.id := Obj(last.result.frag.signals.value)] else before
  }

  function MergedOf(results: seq<Slot>): Merged {
    Merged(SignalsOf(results), AllDiagnostics(results), AnyImpaired(results))
  }

  lemma {:induction false} SignalsMeaning(results: seq<Slot>)
    ensures SignalsMerged(results, SignalsOf(results))
  {
    if results != [] {
      var n := |results| - 1;
      var before, last := results[..n], results[n];
      SignalsMeaning(before);
      forall id, i | 0 <= i < n
        ensures Decides(results, id, i) <==> Decides(before, id, i) && !(last.id == id && HasSignals(last))
      {
        assert before[i] == results[i];
      }
      forall id | id in SignalsOf(results) ensures exists i :: Decides(results, id, i) {
        if last.id == id && HasSignals(last) {
          assert Decides(results, id, n);
        } else {
          var i :| Decides(before, id, i);
          assert Decides(results, id, i);
        }
      }
    }
  }

  /** What one slot adds to the merge. */
  function Absorb(m: Merged, r: Slot): Merged {
    Merged(
      if HasSignals(r) then m.signals[r.id := Obj(r.result.frag.signals.value)] else m.signals,
      m.diags + SlotDiagnostics(r),
      m.degraded || Impaired(r))
  }

  /** The merge loop of `Collect`. */
  method Merge(results: seq<Slot>) returns (m: Merged)
    ensures m == MergedOf(results)
  {
    var signals: Object := map[];
    var diags: seq<Diagnostic> := [];
    var degraded := false;
    for i := 0 to |results|
      invariant Merged(signals, diags, degraded) == MergedOf(results[..i])
    {
      var r := results[i];
      MergeNext(results, i);
      if r.result.Failed? {
        degraded := true;
        diags := diags + [Diagnostic("error", r.result.message, r.id, PROVIDER_FAILED)];
        continue;
      }
      var frag := r.result.frag;
      ghost var was := diags;
      if frag.degraded {
        degraded := true;
        diags := diags + [Diagnostic("warning", "provider returned degraded partial data", r.id, PROVIDER_DEGRADED)];
      }
      diags := diags + frag.diagnostics;
      SlotAppended(was, r);
      if frag.signals.Some? {
        signals := signals[r.id := Obj(frag.signals.value)];
      }
    }
    assert results[..|results|] == results;
    m := Merged(signals, diags, degraded);
  }

  lemma SlotAppended(was: seq<Diagnostic>, r: Slot)
    requires r.result.Returned?
    ensures var frag := r.result.frag;
            var noted := [Diagnostic("warning", "provider returned degraded partial data", r.id, PROVIDER_DEGRADED)];
            was + SlotDiagnostics(r) == (if frag.degraded then was + noted else was) + frag.diagnostics
  {
    var frag := r.result.frag;
    var noted := [Diagnostic("warning", "provider returned degraded partial data", r.id, PROVIDER_DEGRADED)];
    Reassociate(was, noted, frag.diagnostics);
    Reassociate(was, [], frag.diagnostics);
    assert was + [] == was;
  }

  lemma MergeNext(results: seq<Slot>, i: nat)
    requires i < |results|
    ensures MergedOf(results[..i + 1]) == Absorb(MergedOf(results[..i]), results[i])
  {
    var longer := results[..i + 1];
    assert longer[..i] == results[..i] && longer[i] == results[i];
    assert longer == results[..i] + [results[i]];
    DiagnosticsAppend(results[..i], [results[i]]);
    assert AllDiagnostics([results[i]]) == SlotDiagnostics(results[i]);
    ImpairedNext(results, i);
  }

  lemma ImpairedNext(results: seq<Slot>, i: nat)
    requires i < |results|
    ensures AnyImpaired(results[..i + 1]) <==> AnyImpaired(results[..i]) || Impaired(results[i])
  {
    var shorter, longer := results[..i], results[..i + 1];
    if AnyImpaired(shorter) {
      var k :| 0 <= k < i && Impaired(shorter[k]);
      assert longer[k] == shorter[k];
    }
    if AnyImpaired(longer) {
      var k :| 0 <= k < |longer| && Impaired(longer[k]);
      assert k < i ==> shorter[k] == longer[k];
    } else {
      assert longer[i] == results[i];
    }
  }

  lemma Reassociate<T>(a: seq<T>, b: seq<T>, c: seq<T>)
    ensures a + (b + c) == (a + b) + c
  {
  }

  lemma DiagnosticsCons(r: Slot, rest: seq<Slot>)
    ensures AllDiagnostics([r] + rest) == SlotDiagnostics(r) + AllDiagnostics(rest)
  {
    assert ([r] + rest)[1..] == rest;
  }

  lemma {:induction false} DiagnosticsAppend(a: seq<Slot>, b: seq<Slot>)
    ensures AllDiagnostics(a + b) == AllDiagnostics(a) + AllDiagnostics(b)
  {
    if a == [] {
      assert a + b == b;
    } else {
      var r, rest := a[0], a[1..];
      assert a == [r] + rest && a + b == [r] + (rest + b);
      DiagnosticsAppend(rest, b);
      DiagnosticsCons(r, rest);
      DiagnosticsCons(r, rest + b);
      Reassociate(SlotDiagnostics(r), AllDiagnostics(rest), AllDiagnostics(b));
    }
  }

  /** Every merged diagnostic stems from a slot, and none is lost. */
  lemma {:induction false} DiagnosticsMeaning(results: seq<Slot>, d: Diagnostic)
    ensures d in AllDiagnostics(results) <==> exists i :: 0 <= i < |results| && d in SlotDiagnostics(results[i])
  {
    if results != [] {
      DiagnosticsMeaning(results[1..], d);
      assert forall i :: 0 <= i < |results[1..]| ==> results[1..][i] == results[i + 1];
      assert forall i :: 1 <= i < |results| ==> results[i] == results[1..][i - 1];
    }
  }

  /** What `Collect` returns for a job. */
  function Collect(job: Job): Merged
    requires WellFormed(job)
  {
    MergedOf(Slots(job))
  }

  /** Serial collection and merge. */
  method RunCollect(job: Job) returns (m: Merged)
    requires WellFormed(job)
    ensures m == Collect(job)
  {
    if |job.enabled| == 0 {
      return Merged(map[], [], false);
    }
    var results := CollectSerial(job);
    m := Merge(results[..]);
  }

  /** Concurrent collection merges to the same signals, diagnostics and degraded flag. */
  lemma ConcurrentEqualsSerial(job: Job, states: seq<Threads>, steps: seq<Step>)
    requires WellFormed(job) && IsSchedule(job, states, steps) && Finished(job, states[|steps|])
    ensures MergedOf(states[|steps|].results) == Collect(job)
  {
    ScheduleIndependent(job, states, steps);
  }
}
