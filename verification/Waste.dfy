// The waste reported cycle by cycle adds up to the waste of the breach.
module Waste {
  import opened Telemetry
  import opened Policy
  import opened Runs
  import opened Ladder
  import opened Window
  import opened Contiguity
  import opened Evidence

  // The sum of the waste reported by the evaluations of the current episode.
  ghost function Reported(c: Rules, run: Run, n: nat, id: string, start: Time): real
    requires IsRun(c, run) && n <= |run.ops|
  {
    if n == 0 || !Holds(run.ms[n], id, start) || run.ms[n].jobs[id].breachedSince == UNSET then 0.0
    else Reported(c, run, n - 1, id, start) + if Judges(run.ops[n - 1], id, start) then run.fs[n - 1].wastedGPUSeconds else 0.0
  }

  // Coverage has already made sure that no GPU the job does not hold counts.
  lemma BreachAccounts(c: Rules, run: Run, n: nat)
    requires IsRun(c, run) && c.t.Valid() && n < |run.ops| && run.ops[n].Evaluating? && run.fs[n].reason == Breach
    ensures var j, now, f := run.ops[n].j, run.ops[n].now, run.fs[n];
      && Holds(run.ms[n], j.id, j.startTime) && Holds(run.ms[n + 1], j.id, j.startTime)
      && var r, r' := run.ms[n].jobs[j.id], run.ms[n + 1].jobs[j.id];
      var from := Max(r'.breachedSince, r.accountedUntil);
      && r'.accountedUntil == now && f.breachedSince == r'.breachedSince
      && f.wastedGPUSeconds == (if from < now then GPUSeconds(j.gpuCount, now - from) else 0.0)
      && f.wastedGPUHours == GPUHours(j.gpuCount, now - r'.breachedSince)
  {
    assert Stepped(c, run, n);
    CoverageIsCovered(c.t, RecordFor(run.ms[n], run.ops[n].j).samples, run.ops[n].j, run.ops[n].now);
  }

  lemma OthersAccountNothing(c: Rules, run: Run, n: nat, id: string, start: Time)
    requires IsRun(c, run) && n < |run.ops| && Holds(run.ms[n + 1], id, start)
    requires !(Judges(run.ops[n], id, start) && run.fs[n].reason == Breach)
    ensures var r' := run.ms[n + 1].jobs[id];
      || (r'.breachedSince == UNSET && r'.accountedUntil == UNSET)
      || (&& Holds(run.ms[n], id, start)
          && r'.breachedSince == run.ms[n].jobs[id].breachedSince && r'.accountedUntil == run.ms[n].jobs[id].accountedUntil
          && (Judges(run.ops[n], id, start) ==> run.fs[n].wastedGPUSeconds == 0.0))
  {
    assert Stepped(c, run, n);
  }

  lemma Telescope(gpus: int, a: Duration, b: Duration)
    ensures GPUSeconds(gpus, a) + GPUSeconds(gpus, b) == GPUSeconds(gpus, a + b)
    ensures GPUSeconds(gpus, 0) == 0.0
    ensures GPUHours(gpus, a) * 3600.0 == GPUSeconds(gpus, a)
  {
    var x, y, g := a as real / NANOS, b as real / NANOS, gpus as real;
    assert (a + b) as real / NANOS == x + y;
    assert g * (x + y) == g * x + g * y;
    assert g * (x / 3600.0) * 3600.0 == g * x;
  }

  ghost predicate Balanced(c: Rules, run: Run, n: nat, j: Job)
    requires IsRun(c, run) && n <= |run.ops|
  {
    Holds(run.ms[n], j.id, j.startTime) ==>
      var r := run.ms[n].jobs[j.id];
      if r.breachedSince == UNSET then r.accountedUntil == UNSET
      else
        && r.breachedSince <= r.accountedUntil
        && Reported(c, run, n, j.id, j.startTime) == GPUSeconds(j.gpuCount, r.accountedUntil - r.breachedSince)
        && exists e :: 0 <= e < n && Judges(run.ops[e], j.id, j.startTime) && run.ops[e].now == r.accountedUntil
  }

  lemma BreachBalances(c: Rules, run: Run, n: nat, j: Job)
    requires Driven(c, run, j) && UNSET < j.startTime + c.t.warmup
    requires n < |run.ops| && Judges(run.ops[n], j.id, j.startTime) && run.fs[n].reason == Breach
    requires Balanced(c, run, n, j)
    ensures Balanced(c, run, n + 1, j) && run.fs[n].breachedSince != UNSET
    ensures Reported(c, run, n + 1, j.id, j.startTime) == GPUSeconds(j.gpuCount, run.ops[n].now - run.fs[n].breachedSince)
  {
    var id, start, now := j.id, j.startTime, run.ops[n].now;
    BreachAccounts(c, run, n);
    BreachMeans(c, run, n);
    assert Judges(run.ops[n], id, start) && On(run.ops[n], id, start);
    var r, r' := run.ms[n].jobs[id], run.ms[n + 1].jobs[id];
    StoredIsPastWarmup(c, run, n, id, start);
    var earliest := FirstIsEarliest(r.samples);
    if r.breachedSince == UNSET {
      FirstDwell(c, run, n, j);
    } else {
      var e :| 0 <= e < n && Judges(run.ops[e], id, start) && run.ops[e].now == r.accountedUntil;
      assert On(run.ops[e], id, start);
      Telescope(j.gpuCount, r.accountedUntil - r.breachedSince, now - r.accountedUntil);
    }
  }

  // Within an episode, what the cycles report telescopes: nothing is counted
  // twice and nothing is left out.
  lemma {:induction false} AlwaysBalanced(c: Rules, run: Run, n: nat, j: Job)
    requires Driven(c, run, j) && UNSET < j.startTime + c.t.warmup && n <= |run.ops|
    ensures Balanced(c, run, n, j)
  {
    if n > 0 {
      var i, id, start := n - 1, j.id, j.startTime;
      AlwaysBalanced(c, run, i, j);
      if Judges(run.ops[i], id, start) && run.fs[i].reason == Breach {
        assert On(run.ops[i], id, start);
        BreachBalances(c, run, i, j);
      } else if Holds(run.ms[n], id, start) {
        OthersAccountNothing(c, run, i, id, start);
      }
    }
  }

  // The sum of the per-cycle waste of an episode is the number of GPUs the job
  // holds times how long the breach has lasted, which is also what the gauge
  // shows in hours.
  lemma WasteIsConserved(c: Rules, run: Run, n: nat, j: Job)
    requires Driven(c, run, j) && UNSET < j.startTime + c.t.warmup
    requires n < |run.ops| && Judges(run.ops[n], j.id, j.startTime) && run.fs[n].reason == Breach
    ensures Reported(c, run, n + 1, j.id, j.startTime) == GPUSeconds(j.gpuCount, run.ops[n].now - run.fs[n].breachedSince)
    ensures Reported(c, run, n + 1, j.id, j.startTime) == run.fs[n].wastedGPUHours * 3600.0
  {
    AlwaysBalanced(c, run, n, j);
    BreachBalances(c, run, n, j);
    BreachAccounts(c, run, n);
    Telescope(j.gpuCount, run.ops[n].now - run.fs[n].breachedSince, 0);
  }

  // Holding so many GPUs for so many whole seconds wastes the product of the two,
  // and an hour has 3600 of them.
  lemma WasteIsInSeconds(gpus: int, seconds: nat)
    ensures GPUSeconds(gpus, seconds * 1_000_000_000) == gpus as real * seconds as real
    ensures GPUHours(gpus, seconds * 1_000_000_000) * 3600.0 == gpus as real * seconds as real
  {
    assert (seconds * 1_000_000_000) as real / NANOS == seconds as real;
    Telescope(gpus, seconds * 1_000_000_000, 0);
  }
}
