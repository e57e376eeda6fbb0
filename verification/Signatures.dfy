// Escalation past Alert needs positive evidence, never the absence of data.
module Signatures {
  import opened Telemetry
  import opened Policy
  import opened Runs
  import opened Ladder
  import opened Window
  import Evidence

  // Nothing runs on any GPU, as read, not as missing.
  ghost predicate PositivelyIdle(t: Thresholds, window: seq<Sample>) {
    && window != []
    && (forall s :: s in window ==> s.pidsKnown && s.pids == [] && s.powerKnown)
    && SumPower(window) / |window| as real < t.idlePowerWatts
    && SumMem(window) / |window| as real < t.memHeldFraction
  }

  // Some process was seen, memory is held, and there is no compute at all.
  ghost predicate PositivelyHung(t: Thresholds, window: seq<Sample>) {
    && window != []
    && (exists s :: s in window && s.pidsKnown && s.pids != [])
    && (forall s :: s in window ==> s.util < 1.0)
    && t.memHeldFraction <= SumMem(window) / |window| as real
  }

  // The two signatures that may escalate mean exactly that.
  lemma ClassifyMeans(t: Thresholds, window: seq<Sample>)
    requires window != []
    ensures Classify(Summary(window), t) == Idle <==> PositivelyIdle(t, window)
    ensures Classify(Summary(window), t) == Hung <==> PositivelyHung(t, window)
  {
    MaxPidsBounds(window);
    PeakUtilBounds(window, 1.0);
  }

  // ---- What it takes, sample by sample ----

  // Nothing runs on the GPU, as read; it draws little power and holds little memory.
  predicate IdleSample(t: Thresholds, x: Sample) {
    && x.pidsKnown && x.pids == [] && x.powerKnown && x.power < t.idlePowerWatts
    && if x.memKnown && 0 < x.memTotal then x.memUsed as real < t.memHeldFraction * x.memTotal as real else 0.0 < t.memHeldFraction
  }

  // At least that part of the memory is held.
  predicate HoldsMemory(t: Thresholds, x: Sample) {
    x.memKnown && 0 < x.memTotal && t.memHeldFraction * x.memTotal as real <= x.memUsed as real
  }

  lemma FractionOrder(x: Sample, limit: real)
    requires x.memKnown && 0 < x.memTotal
    ensures x.MemUsedFraction() < limit <==> x.memUsed as real < limit * x.memTotal as real
  {
    FractionMeans(x);
    var r, total := x.MemUsedFraction(), x.memTotal as real;
    if r < limit {
      assert (limit - r) * total > 0.0;
    } else {
      assert (r - limit) * total >= 0.0;
    }
  }

  function Multiple(n: nat, x: real): real {
    n as real * x
  }

  lemma MultipleStep(n: nat, x: real)
    ensures Multiple(n + 1, x) == Multiple(n, x) + x && Multiple(0, x) == 0.0
  {
  }

  lemma MultipleGrows(n: nat, x: real, y: real)
    ensures x <= y ==> Multiple(n, x) <= Multiple(n, y)
  {
    if n > 0 {
      MultipleGrows(n - 1, x, y);
      MultipleStep(n - 1, x);
      MultipleStep(n - 1, y);
    }
  }

  lemma MeanBelow(sum: real, n: nat, limit: real)
    requires 0 < n
    ensures sum < Multiple(n, limit) <==> sum / n as real < limit
  {
    var mean := sum / n as real;
    assert Multiple(n, mean) == sum;
    MultipleGrows(n, limit, mean);
    if mean < limit {
      assert n as real * (limit - mean) > 0.0;
    }
  }

  lemma {:induction false} SumsBelow(t: Thresholds, samples: seq<Sample>)
    requires samples != [] && forall x :: x in samples ==> IdleSample(t, x)
    ensures SumPower(samples) < Multiple(|samples|, t.idlePowerWatts)
    ensures SumMem(samples) < Multiple(|samples|, t.memHeldFraction)
  {
    var n := |samples| - 1;
    var last := samples[n];
    assert last in samples;
    MultipleStep(n, t.idlePowerWatts);
    MultipleStep(n, t.memHeldFraction);
    if last.memKnown && 0 < last.memTotal {
      FractionOrder(last, t.memHeldFraction);
    }
    if n > 0 {
      SumsBelow(t, samples[..n]);
    } else {
      assert samples[..0] == [];
    }
  }

  lemma {:induction false} MemoryAbove(t: Thresholds, samples: seq<Sample>)
    requires forall x :: x in samples ==> HoldsMemory(t, x)
    ensures Multiple(|samples|, t.memHeldFraction) <= SumMem(samples)
  {
    if samples != [] {
      var n := |samples| - 1;
      assert samples[n] in samples;
      FractionOrder(samples[n], t.memHeldFraction);
      MultipleStep(n, t.memHeldFraction);
      MemoryAbove(t, samples[..n]);
    }
  }

  lemma {:induction false} PowerAbove(t: Thresholds, samples: seq<Sample>)
    requires forall x :: x in samples ==> x.powerKnown && t.idlePowerWatts <= x.power
    ensures Multiple(|samples|, t.idlePowerWatts) <= SumPower(samples)
  {
    if samples != [] {
      var n := |samples| - 1;
      assert samples[n] in samples;
      MultipleStep(n, t.idlePowerWatts);
      PowerAbove(t, samples[..n]);
    }
  }

  // A window of idle samples is idle.
  lemma IdleWindow(t: Thresholds, samples: seq<Sample>)
    requires samples != [] && forall x :: x in samples ==> IdleSample(t, x)
    ensures Classify(Summary(samples), t) == Idle
  {
    SumsBelow(t, samples);
    MeanBelow(SumPower(samples), |samples|, t.idlePowerWatts);
    MeanBelow(SumMem(samples), |samples|, t.memHeldFraction);
    ClassifyMeans(t, samples);
  }

  // A window that holds memory, ran a process and computed nothing is hung.
  lemma HungWindow(t: Thresholds, samples: seq<Sample>, running: Sample)
    requires forall x :: x in samples ==> HoldsMemory(t, x) && x.util < 1.0
    requires running in samples && running.pidsKnown && running.pids != []
    ensures Classify(Summary(samples), t) == Hung
  {
    MemoryAbove(t, samples);
    MeanBelow(SumMem(samples), |samples|, t.memHeldFraction);
    ClassifyMeans(t, samples);
  }

  // One that holds memory and computed something is starved.
  lemma StarvedWindow(t: Thresholds, samples: seq<Sample>, busy: Sample)
    requires forall x :: x in samples ==> HoldsMemory(t, x)
    requires busy in samples && 1.0 <= busy.util
    ensures Classify(Summary(samples), t) == Starved
  {
    MemoryAbove(t, samples);
    MeanBelow(SumMem(samples), |samples|, t.memHeldFraction);
    PeakUtilBounds(samples, 1.0);
  }

  // What holds memory throughout, or draws power throughout, or was not read for
  // processes or power even once, or ran a process even once, is not idle.
  lemma NotIdleWindow(t: Thresholds, samples: seq<Sample>)
    requires samples != []
    requires
      || (forall x :: x in samples ==> HoldsMemory(t, x))
      || (forall x :: x in samples ==> x.powerKnown && t.idlePowerWatts <= x.power)
      || (exists x :: x in samples && !(x.pidsKnown && x.pids == [] && x.powerKnown))
    ensures Classify(Summary(samples), t) != Idle
  {
    ClassifyMeans(t, samples);
    MeanBelow(SumMem(samples), |samples|, t.memHeldFraction);
    MeanBelow(SumPower(samples), |samples|, t.idlePowerWatts);
    if forall x :: x in samples ==> HoldsMemory(t, x) {
      MemoryAbove(t, samples);
    } else if forall x :: x in samples ==> x.powerKnown && t.idlePowerWatts <= x.power {
      PowerAbove(t, samples);
    }
  }

  // ---- What a finding says it measured ----

  // The sums are sums: of nothing, of one sample, and of two windows together.
  lemma {:induction false} SumsAdd(a: seq<Sample>, b: seq<Sample>)
    ensures SumUtil(a + b) == SumUtil(a) + SumUtil(b)
    ensures SumMem(a + b) == SumMem(a) + SumMem(b)
    ensures SumPower(a + b) == SumPower(a) + SumPower(b)
  {
    if b == [] {
      assert a + b == a;
    } else {
      var n := |b| - 1;
      assert (a + b)[..|a + b| - 1] == a + b[..n] && (a + b)[|a + b| - 1] == b[n];
      SumsAdd(a, b[..n]);
    }
  }

  lemma SumsOfOne(x: Sample)
    ensures SumUtil([x]) == x.util
    ensures x.memKnown && 0 < x.memTotal ==> SumMem([x]) * x.memTotal as real == x.memUsed as real
    ensures !x.memKnown || x.memTotal == 0 ==> SumMem([x]) == 0.0
    ensures SumPower([x]) == if x.powerKnown then x.power else 0.0
  {
    assert [x][..0] == [];
    FractionMeans(x);
  }

  // The mean of so many adds up to the sum.
  predicate IsMean(mean: real, sum: real, n: nat) {
    mean * n as real == sum
  }

  lemma MeanIsMean(mean: real, sum: real, n: nat)
    requires 0 < n && mean == sum / n as real
    ensures IsMean(mean, sum, n)
  {
  }

  lemma SummaryMeasures(window: seq<Sample>)
    requires window != []
    ensures var s := Summary(window);
      && IsMean(s.meanUtil, SumUtil(window), |window|)
      && IsMean(s.meanMem, SumMem(window), |window|)
      && (s.powerKnown <==> forall x :: x in window ==> x.powerKnown)
      && (s.powerKnown ==> IsMean(s.meanPower, SumPower(window), |window|))
      && (!s.powerKnown ==> s.meanPower == 0.0)
  {
    var s := Summary(window);
    MeanIsMean(s.meanUtil, SumUtil(window), |window|);
    MeanIsMean(s.meanMem, SumMem(window), |window|);
    if s.powerKnown {
      MeanIsMean(s.meanPower, SumPower(window), |window|);
    }
  }

  lemma FindingSummarizes(c: Rules, run: Run, n: nat)
    requires IsRun(c, run) && n < |run.ops| && run.ops[n].Evaluating?
    requires run.fs[n].reason == Busy || run.fs[n].reason == Breach
    ensures var j, f := run.ops[n].j, run.fs[n];
      && Holds(run.ms[n], j.id, j.startTime)
      && var window := run.ms[n].jobs[j.id].samples;
      && window != []
      && var s := Summary(window);
      && f.meanUtil == s.meanUtil && f.peakUtil == s.peakUtil && f.memHeld == s.meanMem
      && f.powerKnown == s.powerKnown && f.meanPower == s.meanPower
  {
    assert Stepped(c, run, n);
  }

  // A finding about covered evidence reports the means over the whole window, its
  // largest utilization, and the power only if every sample had one.
  lemma FindingMeasures(c: Rules, run: Run, n: nat)
    requires IsRun(c, run) && c.t.Valid() && n < |run.ops| && run.ops[n].Evaluating?
    requires run.fs[n].reason == Busy || run.fs[n].reason == Breach
    ensures var j, f := run.ops[n].j, run.fs[n];
      && Holds(run.ms[n], j.id, j.startTime)
      && var window := run.ms[n].jobs[j.id].samples;
      && window != []
      && IsMean(f.meanUtil, SumUtil(window), |window|)
      && IsMean(f.memHeld, SumMem(window), |window|)
      && (f.powerKnown <==> forall x :: x in window ==> x.powerKnown)
      && (f.powerKnown ==> IsMean(f.meanPower, SumPower(window), |window|))
      && (!f.powerKnown ==> f.meanPower == 0.0)
  {
    FindingSummarizes(c, run, n);
    SummaryMeasures(run.ms[n].jobs[run.ops[n].j.id].samples);
  }

  // It says how many GPUs were seen, and how often the node seen least often was.
  lemma FindingCounts(c: Rules, run: Run, n: nat)
    requires IsRun(c, run) && c.t.Valid() && n < |run.ops| && run.ops[n].Evaluating?
    requires run.fs[n].reason == Busy || run.fs[n].reason == Breach
    ensures var j, f := run.ops[n].j, run.fs[n];
      && Holds(run.ms[n], j.id, j.startTime)
      && var window := run.ms[n].jobs[j.id].samples;
      && f.gpus == |set x | x in window :: (x.node, x.gpu)|
      && (forall m :: m in j.nodes ==> f.observations <= |set x | x in window && x.node == m :: x.timestamp|)
      && exists m :: m in j.nodes && f.observations == |set x | x in window && x.node == m :: x.timestamp|
  {
    CountsAreCovered(c, run, n);
    Evidence.ObservationsMean(c.t, run.ms[n].jobs[run.ops[n].j.id].samples, run.ops[n].j, run.ops[n].now);
  }

  lemma CountsAreCovered(c: Rules, run: Run, n: nat)
    requires IsRun(c, run) && n < |run.ops| && run.ops[n].Evaluating?
    requires run.fs[n].reason == Busy || run.fs[n].reason == Breach
    ensures var j, f := run.ops[n].j, run.fs[n];
      && Holds(run.ms[n], j.id, j.startTime)
      && var cov := CoverageOf(c.t, run.ms[n].jobs[j.id].samples, j, run.ops[n].now);
      && cov.fault == Sound && f.gpus == cov.gpus && f.observations == cov.observations
  {
    assert Stepped(c, run, n);
  }

  // The reported peak is reached by some sample, unless it is zero, and by none exceeded.
  lemma FindingPeak(c: Rules, run: Run, n: nat, limit: real)
    requires IsRun(c, run) && c.t.Valid() && n < |run.ops| && run.ops[n].Evaluating? && 0.0 < limit
    requires run.fs[n].reason == Busy || run.fs[n].reason == Breach
    ensures var j := run.ops[n].j;
      && Holds(run.ms[n], j.id, j.startTime)
      && 0.0 <= run.fs[n].peakUtil
      && (run.fs[n].peakUtil < limit <==> forall x :: x in run.ms[n].jobs[j.id].samples ==> x.util < limit)
      && (run.fs[n].reason == Busy <==> c.t.utilPct <= run.fs[n].peakUtil)
  {
    assert Stepped(c, run, n);
    PeakUtilBounds(RecordFor(run.ms[n], run.ops[n].j).samples, limit);
  }

  lemma SevereIsClassified(c: Rules, run: Run, n: nat)
    requires IsRun(c, run) && n < |run.ops| && run.ops[n].Evaluating? && Alert.Below(run.fs[n].verdict)
    ensures var j, sig := run.ops[n].j, run.fs[n].signature;
      && Holds(run.ms[n], j.id, j.startTime) && run.ms[n].jobs[j.id].samples != []
      && sig == Classify(Summary(run.ms[n].jobs[j.id].samples), c.t) && (sig == Idle || sig == Hung)
  {
    assert Stepped(c, run, n);
  }

  // In every run, a Drain or Cancel rests on a window that is positively idle or
  // positively hung, and a Cancel on one whose signature may be cancelled.
  lemma SevereHasPositiveEvidence(c: Rules, run: Run, n: nat)
    requires IsRun(c, run) && n < |run.ops| && run.ops[n].Evaluating? && Alert.Below(run.fs[n].verdict)
    ensures var j, sig := run.ops[n].j, run.fs[n].signature;
      && Holds(run.ms[n], j.id, j.startTime)
      && var window := run.ms[n].jobs[j.id].samples;
      && (sig == Idle || sig == Hung)
      && (sig == Idle ==> PositivelyIdle(c.t, window))
      && (sig == Hung ==> PositivelyHung(c.t, window))
      && (run.fs[n].verdict == Cancel ==> sig in run.ms[n].cancellable && run.ms[n].cancellable <= {Idle, Hung})
  {
    SevereIsClassified(c, run, n);
    SevereNeeds(c, run, n);
    CancellableAlwaysAllowed(c, run, n);
    ClassifyMeans(c.t, run.ms[n].jobs[run.ops[n].j.id].samples);
  }

  // No delivery to the job ever carried a readable process list.
  ghost predicate ProcessBlind(run: Run, id: string) {
    forall i :: 0 <= i < |run.ops| && run.ops[i].Observing? && run.ops[i].j.id == id ==>
      forall s :: s in run.ops[i].samples ==> !s.pidsKnown
  }

  lemma {:induction false} BlindStore(c: Rules, run: Run, n: nat, id: string, start: Time)
    requires IsRun(c, run) && ProcessBlind(run, id) && n <= |run.ops| && Holds(run.ms[n], id, start)
    ensures forall s :: s in run.ms[n].jobs[id].samples ==> !s.pidsKnown
  {
    var op, m := run.ops[n - 1], run.ms[n - 1];
    StepStores(c, run, n - 1, id, start);
    if Holds(m, id, start) {
      BlindStore(c, run, n - 1, id, start);
    }
    if Delivers(op, id, start) {
      var before := if Holds(m, id, start) then m.jobs[id].samples else [];
      AdmittedMembers(c.t, start, op.samples);
      SinceMembers(before + Admitted(c.t, start, op.samples), op.now - c.t.window);
    }
  }

  lemma BlindIsNotPositive(t: Thresholds, window: seq<Sample>)
    requires forall s :: s in window ==> !s.pidsKnown
    ensures !PositivelyIdle(t, window) && !PositivelyHung(t, window)
  {
    assert window != [] ==> window[0] in window;
  }

  // A source that cannot read process lists, as dcgm-exporter cannot, can never
  // take a job past Alert, in any run.
  lemma ProcessBlindStopsAtAlert(c: Rules, run: Run, n: nat)
    requires IsRun(c, run) && n < |run.ops| && run.ops[n].Evaluating? && ProcessBlind(run, run.ops[n].j.id)
    ensures !Alert.Below(run.fs[n].verdict)
  {
    if Alert.Below(run.fs[n].verdict) {
      SevereHasPositiveEvidence(c, run, n);
      BlindStore(c, run, n, run.ops[n].j.id, run.ops[n].j.startTime);
      BlindIsNotPositive(c.t, run.ms[n].jobs[run.ops[n].j.id].samples);
      assert false;
    }
  }
}
