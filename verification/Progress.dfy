// Under every configuration the validator accepts, a steady stream of breaching
// telemetry is confirmed, and exactly when.
module Progress {
  import opened Telemetry
  import opened Policy
  import opened Runs
  import opened Ladder
  import opened Window
  import opened Contiguity
  import opened Evidence
  import opened Config

  // Cycle i delivers snapshot(i), all of it stamped at that cycle.
  datatype Stream = Stream(snapshot: nat -> seq<Sample>, from: Time, interval: Duration) {
    function Stamp(i: nat): Time {
      from + i * interval
    }
  }

  // An exactly periodic, readable, breaching stream from a constant set of GPUs
  // that covers the job, beginning when its warmup is over.
  ghost predicate Steady(t: Thresholds, s: Stream, j: Job) {
    && 0 < s.interval
    && j.startTime != UNSET && j.startTime + t.warmup <= s.from
    && j.nodes != [] && j.gpuCount != 0
    && j.gpuCount <= |GPUs(s.snapshot(0))|
    && forall i: nat {:trigger SteadyAt(t, s, j, i)} :: SteadyAt(t, s, j, i)
  }

  ghost predicate SteadyAt(t: Thresholds, s: Stream, j: Job, i: nat) {
    && (forall x :: x in s.snapshot(i) ==> x.timestamp == s.Stamp(i) && Breaches(t, x))
    && (forall n :: n in j.nodes ==> Count(s.snapshot(i), n, s.Stamp(i)) == Count(s.snapshot(0), n, s.Stamp(0)) > 0)
    && GPUs(s.snapshot(i)) == GPUs(s.snapshot(0))
  }


  // The snapshots of cycles lo up to and including k.
  function Between(s: Stream, lo: nat, k: int): seq<Sample> {
    if k < lo then [] else Between(s, lo, k - 1) + s.snapshot(k)
  }

  lemma {:induction false} BetweenMembers(s: Stream, lo: nat, k: int, x: Sample)
    ensures x in Between(s, lo, k) <==> exists i: nat :: lo <= i <= k && x in s.snapshot(i)
  {
    if lo <= k {
      BetweenMembers(s, lo, k - 1, x);
    }
  }

  lemma Spread(i: int, k: int, step: int)
    ensures k * step - i * step == (k - i) * step
  {
  }

  lemma Positive(d: int, step: int)
    requires 0 < step
    ensures 0 < d ==> step <= d * step
    ensures d <= 0 ==> d * step <= 0
  {
  }

  lemma StampOrder(s: Stream, i: nat, k: nat)
    requires 0 < s.interval
    ensures i < k <==> s.Stamp(i) < s.Stamp(k)
    ensures s.Stamp(k) - s.Stamp(i) == (k - i) * s.interval
  {
    Spread(i, k, s.interval);
    Positive(k - i, s.interval);
  }

  // ---- What the window is at cycle k ----

  lemma {:induction false} SinceAll(samples: seq<Sample>, cutoff: Time)
    requires forall x :: x in samples ==> cutoff <= x.timestamp
    ensures Since(samples, cutoff) == samples
  {
    if samples != [] {
      var n := |samples| - 1;
      assert samples == samples[..n] + [samples[n]];
      assert samples[n] in samples;
      SinceAll(samples[..n], cutoff);
    }
  }

  lemma {:induction false} SinceNone(samples: seq<Sample>, cutoff: Time)
    requires forall x :: x in samples ==> x.timestamp < cutoff
    ensures Since(samples, cutoff) == []
  {
    if samples != [] {
      var n := |samples| - 1;
      assert samples[n] in samples;
      SinceNone(samples[..n], cutoff);
    }
  }

  lemma SnapshotPruned(t: Thresholds, s: Stream, j: Job, k: nat, lo: nat, cutoff: Time)
    requires Steady(t, s, j)
    requires s.Stamp(lo) >= cutoff && (lo > 0 ==> s.Stamp(lo - 1) < cutoff)
    ensures Since(s.snapshot(k), cutoff) == if lo <= k then s.snapshot(k) else []
  {
    assert SteadyAt(t, s, j, k);
    if lo <= k {
      StampOrder(s, lo, k);
      SinceAll(s.snapshot(k), cutoff);
    } else {
      StampOrder(s, k, lo - 1);
      SinceNone(s.snapshot(k), cutoff);
    }
  }

  // Cycles before lo are too old, cycles from lo on are not.
  lemma {:induction false} Pruned(t: Thresholds, s: Stream, j: Job, k: int, lo: nat, cutoff: Time)
    requires Steady(t, s, j) && -1 <= k
    requires s.Stamp(lo) >= cutoff && (lo > 0 ==> s.Stamp(lo - 1) < cutoff)
    ensures Since(Between(s, 0, k), cutoff) == Between(s, lo, k)
  {
    if 0 <= k {
      Pruned(t, s, j, k - 1, lo, cutoff);
      SnapshotPruned(t, s, j, k, lo, cutoff);
      SinceAppend(Between(s, 0, k - 1), s.snapshot(k), cutoff);
      assert k < lo ==> Between(s, lo, k) == [] == Between(s, lo, k - 1);
    }
  }

  // ---- When such a window confirms ----

  ghost function Stamps(s: Stream, lo: nat, k: int): set<Time> {
    set i: nat | lo <= i <= k :: s.Stamp(i)
  }

  lemma {:induction false} StampsSize(s: Stream, lo: nat, k: int)
    requires 0 < s.interval && lo <= k + 1
    ensures |Stamps(s, lo, k)| == k + 1 - lo
  {
    if lo <= k {
      StampsSize(s, lo, k - 1);
      assert Stamps(s, lo, k) == Stamps(s, lo, k - 1) + {s.Stamp(k)};
      forall i: nat | lo <= i <= k - 1 ensures s.Stamp(i) != s.Stamp(k) {
        StampOrder(s, i, k);
      }
    } else {
      assert Stamps(s, lo, k) == {};
    }
  }

  lemma {:induction false} CountPositive(samples: seq<Sample>, n: string, at: Time)
    requires Count(samples, n, at) > 0
    ensures exists x :: x in samples && x.node == n && x.timestamp == at
  {
    var last := samples[|samples| - 1];
    assert samples == samples[..|samples| - 1] + [last];
    if !(last.node == n && last.timestamp == at) {
      CountPositive(samples[..|samples| - 1], n, at);
    }
  }

  lemma TimesOfWindow(t: Thresholds, s: Stream, j: Job, lo: nat, k: nat, n: string)
    requires Steady(t, s, j) && n in j.nodes
    ensures Times(Between(s, lo, k), n) == Stamps(s, lo, k)
  {
    var w := Between(s, lo, k);
    forall x | x in w && x.node == n ensures x.timestamp in Stamps(s, lo, k) {
      BetweenMembers(s, lo, k, x);
      var i: nat :| lo <= i <= k && x in s.snapshot(i);
      assert SteadyAt(t, s, j, i);
    }
    forall i: nat | lo <= i <= k ensures s.Stamp(i) in Times(w, n) {
      assert SteadyAt(t, s, j, i);
      CountPositive(s.snapshot(i), n, s.Stamp(i));
      var x :| x in s.snapshot(i) && x.node == n && x.timestamp == s.Stamp(i);
      BetweenMembers(s, lo, k, x);
    }
  }

  // No earlier cycle carries the stamp of cycle k.
  lemma NoneEarlier(t: Thresholds, s: Stream, j: Job, lo: nat, k: nat, n: string)
    requires Steady(t, s, j)
    ensures Count(Between(s, lo, k - 1), n, s.Stamp(k)) == 0
  {
    forall x | x in Between(s, lo, k - 1) ensures x.timestamp != s.Stamp(k) {
      BetweenMembers(s, lo, k - 1, x);
      var m: nat :| lo <= m <= k - 1 && x in s.snapshot(m);
      assert SteadyAt(t, s, j, m);
      StampOrder(s, m, k);
    }
    CountOutside(Between(s, lo, k - 1), n, s.Stamp(k));
  }

  lemma NoneLater(t: Thresholds, s: Stream, j: Job, k: nat, n: string, i: nat)
    requires Steady(t, s, j) && i < k
    ensures Count(s.snapshot(k), n, s.Stamp(i)) == 0
  {
    assert SteadyAt(t, s, j, k);
    StampOrder(s, i, k);
    CountOutside(s.snapshot(k), n, s.Stamp(i));
  }

  lemma CountOneMore(s: Stream, lo: nat, k: nat, n: string, at: Time)
    requires lo <= k
    ensures Count(Between(s, lo, k), n, at) == Count(Between(s, lo, k - 1), n, at) + Count(s.snapshot(k), n, at)
  {
    CountSplit(Between(s, lo, k - 1), s.snapshot(k), n, at);
  }

  lemma {:induction false} CountsOfWindow(t: Thresholds, s: Stream, j: Job, lo: nat, k: int, n: string, i: nat)
    requires Steady(t, s, j) && n in j.nodes && lo <= i <= k
    ensures Count(Between(s, lo, k), n, s.Stamp(i)) == Count(s.snapshot(0), n, s.Stamp(0))
  {
    CountOneMore(s, lo, k, n, s.Stamp(i));
    if i == k {
      assert SteadyAt(t, s, j, k);
      NoneEarlier(t, s, j, lo, k, n);
    } else {
      NoneLater(t, s, j, k, n, i);
      CountsOfWindow(t, s, j, lo, k - 1, n, i);
    }
  }

  ghost predicate EnoughCycles(t: Thresholds, s: Stream, lo: nat, k: nat) {
    t.minSamples <= k + 1 - lo && t.window - t.maxSampleGap <= (k - lo) * s.interval
  }

  lemma NodeOfWindow(t: Thresholds, s: Stream, j: Job, lo: nat, k: nat, n: string)
    requires t.Valid() && Steady(t, s, j) && s.interval < t.maxSampleGap && n in j.nodes && lo <= k
    ensures NodeCovered(t, Between(s, lo, k), n, s.Stamp(k)) <==> EnoughCycles(t, s, lo, k)
  {
    var w, now, times := Between(s, lo, k), s.Stamp(k), Stamps(s, lo, k);
    TimesOfWindow(t, s, j, lo, k, n);
    StampsSize(s, lo, k);
    forall i: nat | lo <= i <= k ensures Count(w, n, s.Stamp(i)) == Count(s.snapshot(0), n, s.Stamp(0)) {
      CountsOfWindow(t, s, j, lo, k, n, i);
    }
    assert Uniform(w, n);
    assert now in times && s.Stamp(lo) in times;
    assert NewestIsRecent(t, times, now);
    forall at | at in times ensures IsNewest(times, at) || HasSuccessor(t, times, at) {
      Successor(t, s, lo, k, at);
    }
    StampOrder(s, lo, k);
    forall i: nat | lo <= i <= k ensures s.Stamp(lo) <= s.Stamp(i) {
      StampOrder(s, lo, i);
    }
    assert OldestReachesBack(t, times, now) <==> s.Stamp(lo) <= now - t.window + t.maxSampleGap;
  }

  lemma Successor(t: Thresholds, s: Stream, lo: nat, k: nat, at: Time)
    requires 0 < s.interval < t.maxSampleGap && at in Stamps(s, lo, k)
    ensures IsNewest(Stamps(s, lo, k), at) || HasSuccessor(t, Stamps(s, lo, k), at)
  {
    var times := Stamps(s, lo, k);
    var i: nat :| lo <= i <= k && at == s.Stamp(i);
    if i < k {
      StampOrder(s, i, i + 1);
      assert s.Stamp(i + 1) in times;
    } else {
      forall u | u in times ensures u <= at {
        var m: nat :| lo <= m <= k && u == s.Stamp(m);
        StampOrder(s, k, m);
      }
    }
  }

  lemma GPUsAppend(a: seq<Sample>, b: seq<Sample>)
    ensures GPUs(a + b) == GPUs(a) + GPUs(b)
  {
    assert forall x :: x in a + b <==> x in a || x in b;
  }

  lemma {:induction false} GPUsOfWindow(t: Thresholds, s: Stream, j: Job, lo: nat, k: int)
    requires Steady(t, s, j) && lo <= k
    ensures GPUs(Between(s, lo, k)) == GPUs(s.snapshot(0))
  {
    GPUsAppend(Between(s, lo, k - 1), s.snapshot(k));
    assert SteadyAt(t, s, j, k);
    if lo < k {
      GPUsOfWindow(t, s, j, lo, k - 1);
    } else {
      assert Between(s, lo, k - 1) == [];
    }
  }

  lemma WindowConfirms(t: Thresholds, s: Stream, j: Job, lo: nat, k: nat)
    requires t.Valid() && Steady(t, s, j) && s.interval < t.maxSampleGap && lo <= k
    ensures Confirmed(t, Between(s, lo, k), j, s.Stamp(k)) <==> EnoughCycles(t, s, lo, k)
  {
    var w := Between(s, lo, k);
    forall x | x in w ensures Breaches(t, x) {
      BetweenMembers(s, lo, k, x);
      var i: nat :| lo <= i <= k && x in s.snapshot(i);
      assert SteadyAt(t, s, j, i);
    }
    GPUsOfWindow(t, s, j, lo, k);
    forall n | n in j.nodes ensures NodeCovered(t, w, n, s.Stamp(k)) <==> EnoughCycles(t, s, lo, k) {
      NodeOfWindow(t, s, j, lo, k, n);
    }
    assert j.nodes[0] in j.nodes;
  }

  // ---- Which cycle that is ----

  // The smallest number of intervals that spans d.
  function IntervalsToSpan(d: int, interval: int): (k: nat)
    requires 0 < interval && 0 <= d
  {
    (d + interval - 1) / interval
  }

  // The first cycle to be confirmed, counted from the first one after warmup.
  function FirstConfirmed(t: Thresholds, interval: Duration): nat
    requires t.Valid() && 0 < interval
  {
    Max(t.minSamples - 1, IntervalsToSpan(t.window - t.maxSampleGap, interval))
  }

  lemma SpanMeans(d: int, interval: int, k: nat)
    requires 0 < interval && 0 <= d
    ensures d <= k * interval <==> IntervalsToSpan(d, interval) <= k
  {
    var q := IntervalsToSpan(d, interval);
    assert q * interval <= d + interval - 1 < (q + 1) * interval;
    if q <= k {
      assert q * interval <= k * interval;
    } else {
      assert (k + 1) * interval <= q * interval;
    }
  }

  // The oldest cycle still in the window at cycle k.
  function OldestKept(t: Thresholds, interval: Duration, k: nat): (lo: nat)
    requires 0 < interval && 0 < t.window
    ensures lo <= k
  {
    Max(0, k - t.window / interval)
  }

  lemma OldestKeptMeans(t: Thresholds, s: Stream, k: nat)
    requires 0 < s.interval && 0 < t.window
    ensures var lo := OldestKept(t, s.interval, k);
      s.Stamp(lo) >= s.Stamp(k) - t.window && (lo > 0 ==> s.Stamp(lo - 1) < s.Stamp(k) - t.window)
  {
    var q, lo := t.window / s.interval, OldestKept(t, s.interval, k);
    assert q * s.interval <= t.window < (q + 1) * s.interval;
    StampOrder(s, lo, k);
    if lo > 0 {
      StampOrder(s, lo - 1, k);
    } else {
      assert k * s.interval <= q * s.interval;
    }
  }

  lemma MulOrder(a: int, b: int, step: int)
    requires 0 < step && a * step < b * step
    ensures a < b
  {
    Positive(b - a, step);
    assert (b - a) * step == b * step - a * step;
  }

  // The most cycles any window holds is one more than how many intervals fit.
  predicate FitsWindow(t: Thresholds, interval: Duration)
    requires 0 < interval
  {
    t.minSamples <= t.window / interval + 1
  }

  lemma WindowSpansEnough(t: Thresholds, interval: Duration)
    requires t.Valid() && 0 < interval < t.maxSampleGap
    ensures IntervalsToSpan(t.window - t.maxSampleGap, interval) <= t.window / interval
  {
    var q := t.window / interval;
    assert q * interval <= t.window < (q + 1) * interval;
    assert (q + 1) * interval == q * interval + interval;
    SpanMeans(t.window - t.maxSampleGap, interval, q);
  }

  // The window holds enough cycles from the first possible one on, or never.
  lemma EnoughFromThenOn(t: Thresholds, s: Stream, k: nat)
    requires t.Valid() && 0 < s.interval < t.maxSampleGap
    ensures EnoughCycles(t, s, OldestKept(t, s.interval, k), k) <==> FitsWindow(t, s.interval) && FirstConfirmed(t, s.interval) <= k
  {
    WindowSpansEnough(t, s.interval);
    SpanMeans(t.window - t.maxSampleGap, s.interval, k - OldestKept(t, s.interval, k));
  }

  // ---- The run ----

  lemma JudgedWhen(c: Rules, run: Run, n: nat)
    requires IsRun(c, run) && c.t.Valid() && n < |run.ops| && run.ops[n].Evaluating?
    requires var j := run.ops[n].j;
      && !c.exempt(j) && j.gpuCount != 0 && j.startTime != UNSET
      && c.t.warmup <= run.ops[n].now - j.startTime && Holds(run.ms[n], j.id, j.startTime)
    ensures var j, r := run.ops[n].j, run.ms[n].jobs[run.ops[n].j.id];
      && (run.fs[n].reason == Breach <==> r.samples != [] && Confirmed(c.t, r.samples, j, run.ops[n].now))
      && Holds(run.ms[n + 1], j.id, j.startTime) && run.ms[n + 1].jobs[j.id].samples == r.samples
  {
    assert Stepped(c, run, n);
    var r := run.ms[n].jobs[run.ops[n].j.id];
    CoverageIsCovered(c.t, r.samples, run.ops[n].j, run.ops[n].now);
    PeakUtilBounds(r.samples, c.t.utilPct);
  }

  // A judgement of samples that does not confirm a breach wipes the record.
  lemma QuietIsBlank(c: Rules, run: Run, n: nat)
    requires IsRun(c, run) && n < |run.ops| && run.ops[n].Evaluating? && run.fs[n].reason != Breach
    requires var j := run.ops[n].j;
      && !c.exempt(j) && j.gpuCount != 0 && j.startTime != UNSET && c.t.warmup <= run.ops[n].now - j.startTime
      && Holds(run.ms[n], j.id, j.startTime) && run.ms[n].jobs[j.id].samples != []
    ensures var j := run.ops[n].j;
      Holds(run.ms[n + 1], j.id, j.startTime) && Blank(run.ms[n + 1].jobs[j.id]) && run.fs[n].verdict == Healthy
  {
    assert Stepped(c, run, n);
  }

  lemma FirstWindow(t: Thresholds, s: Stream, j: Job)
    requires t.Valid() && Steady(t, s, j)
    ensures Since(Between(s, 0, -1) + s.snapshot(0), s.Stamp(0) - t.window) == Between(s, OldestKept(t, s.interval, 0), 0)
  {
    OldestKeptMeans(t, s, 0);
    Pruned(t, s, j, 0, OldestKept(t, s.interval, 0), s.Stamp(0) - t.window);
  }

  lemma ObservedHolds(c: Rules, run: Run, n: nat)
    requires IsRun(c, run) && n < |run.ops| && run.ops[n].Observing?
    ensures Holds(run.ms[n + 1], run.ops[n].j.id, run.ops[n].j.startTime)
  {
    assert Stepped(c, run, n);
  }

  lemma AllAdmitted(t: Thresholds, s: Stream, j: Job, k: nat)
    requires Steady(t, s, j) && s.from <= s.Stamp(k)
    ensures Admitted(t, j.startTime, s.snapshot(k)) == s.snapshot(k)
  {
    assert SteadyAt(t, s, j, k);
    SinceAll(s.snapshot(k), j.startTime + t.warmup);
  }

  lemma StepStored(c: Rules, run: Run, n: nat, s: Stream, j: Job, k: nat)
    requires IsRun(c, run) && n < |run.ops| && Steady(c.t, s, j) && s.from <= s.Stamp(k)
    requires Matches(c, run.ops[n], Delivered(s, j, k))
    ensures Holds(run.ms[n + 1], j.id, j.startTime)
    ensures run.ms[n + 1].jobs[j.id].samples == Since(RecordFor(run.ms[n], j).samples + s.snapshot(k), s.Stamp(k) - c.t.window)
  {
    ObservedHolds(c, run, n);
    StepStores(c, run, n, j.id, j.startTime);
    AllAdmitted(c.t, s, j, k);
  }

  // Pruning the kept snapshots and the new one is pruning them all.
  lemma KeptWindow(t: Thresholds, s: Stream, j: Job, k: nat)
    requires t.Valid() && Steady(t, s, j) && 0 < k
    ensures Since(Between(s, OldestKept(t, s.interval, k - 1), k - 1) + s.snapshot(k), s.Stamp(k) - t.window)
         == Between(s, OldestKept(t, s.interval, k), k)
  {
    var before, cutoff := s.Stamp(k - 1) - t.window, s.Stamp(k) - t.window;
    StampOrder(s, k - 1, k);
    OldestKeptMeans(t, s, k - 1);
    OldestKeptMeans(t, s, k);
    Pruned(t, s, j, k - 1, OldestKept(t, s.interval, k - 1), before);
    Pruned(t, s, j, k, OldestKept(t, s.interval, k), cutoff);
    PruneAgain(Between(s, 0, k - 1), s.snapshot(k), before, cutoff);
  }

  lemma WindowIsNotEmpty(t: Thresholds, s: Stream, j: Job, lo: nat, k: nat)
    requires Steady(t, s, j) && lo <= k
    ensures Between(s, lo, k) != []
  {
    assert j.nodes[0] in j.nodes;
    TimesOfWindow(t, s, j, lo, k, j.nodes[0]);
    assert s.Stamp(k) in Stamps(s, lo, k);
  }

  // ---- What the engine is told of one job, whatever else it hears ----

  // The operation delivers samples to the job, judges it or drops it. Confirming a
  // drain does none of these.
  predicate Tells(op: Op, id: string) {
    ((op.Observing? || op.Evaluating?) && op.j.id == id) || op == Dropping(id)
  }

  function Told(ops: seq<Op>, id: string): seq<Op> {
    if ops == [] then []
    else
      var last := ops[|ops| - 1];
      Told(ops[..|ops| - 1], id) + if Tells(last, id) then [last] else []
  }

  // Whenever the engine heard which jobs are running, this was one of them.
  ghost predicate StillListed(ops: seq<Op>, id: string) {
    forall i :: 0 <= i < |ops| && ops[i].Forgetting? ==> id in ops[i].active
  }

  function Delivered(s: Stream, j: Job, k: nat): Op {
    Observing(j, s.snapshot(k), s.Stamp(k))
  }

  function Judging(s: Stream, j: Job, k: nat): Op {
    Evaluating(j, s.Stamp(k))
  }

  // The first k cycles of the job: deliver, then judge.
  function Cycles(s: Stream, j: Job, k: nat): (ops: seq<Op>)
    ensures |ops| == 2 * k
  {
    if k == 0 then [] else Cycles(s, j, k - 1) + [Delivered(s, j, k - 1), Judging(s, j, k - 1)]
  }

  // The same delivery or the same judgement, of a job that is as the engine reads it.
  ghost predicate Matches(c: Rules, x: Op, y: Op) {
    || (x.Observing? && y.Observing? && Alike(c, x.j, y.j) && x.samples == y.samples && x.now == y.now)
    || (x.Evaluating? && y.Evaluating? && Alike(c, x.j, y.j) && x.now == y.now)
  }

  ghost predicate AllMatch(c: Rules, xs: seq<Op>, ys: seq<Op>) {
    |xs| == |ys| && forall i :: 0 <= i < |xs| ==> Matches(c, xs[i], ys[i])
  }

  // What is kept after cycle k, of which cycle -1 is before the first.
  function KeptAfter(t: Thresholds, s: Stream, k: int): seq<Sample>
    requires t.Valid() && 0 < s.interval
  {
    if k < 0 then [] else Between(s, OldestKept(t, s.interval, k), k)
  }

  ghost predicate Keeps(c: Rules, m: Memory, s: Stream, j: Job, k: int)
    requires c.t.Valid() && 0 < s.interval
  {
    RecordFor(m, j).samples == KeptAfter(c.t, s, k)
  }

  // Between operations a and n the engine, which kept no samples of the job at a,
  // was told of it only the first k cycles, and then whatever else is in tail. It
  // may have heard anything about other jobs, before, between and within these.
  ghost predicate Follows(c: Rules, run: Run, a: nat, n: nat, s: Stream, j: Job, k: nat, tail: seq<Op>) {
    && IsRun(c, run) && c.t.Valid() && !c.exempt(j) && Steady(c.t, s, j)
    && a <= n <= |run.ops| && RecordFor(run.ms[a], j).samples == []
    && AllMatch(c, Told(run.ops[a..n], j.id), Cycles(s, j, k) + tail) && StillListed(run.ops[a..n], j.id)
  }

  lemma NextKeeps(c: Rules, m: Memory, op: Op, j: Job)
    requires !Tells(op, j.id) && (op.Forgetting? ==> j.id in op.active)
    ensures RecordFor(Next(c, m, op), j).samples == RecordFor(m, j).samples
    ensures RecordFor(Next(c, m, op), j).breachedSince == RecordFor(m, j).breachedSince
  {
  }

  lemma StepKeeps(c: Rules, run: Run, n: nat, j: Job)
    requires IsRun(c, run) && n < |run.ops|
    requires !Tells(run.ops[n], j.id) && (run.ops[n].Forgetting? ==> j.id in run.ops[n].active)
    ensures RecordFor(run.ms[n + 1], j).samples == RecordFor(run.ms[n], j).samples
    ensures RecordFor(run.ms[n + 1], j).breachedSince == RecordFor(run.ms[n], j).breachedSince
  {
    assert Stepped(c, run, n);
    NextKeeps(c, run.ms[n], run.ops[n], j);
  }

  lemma ToldStep(ops: seq<Op>, a: nat, n: nat, id: string)
    requires a < n <= |ops| && StillListed(ops[a..n], id)
    ensures Told(ops[a..n], id) == Told(ops[a..n - 1], id) + if Tells(ops[n - 1], id) then [ops[n - 1]] else []
    ensures StillListed(ops[a..n - 1], id) && (ops[n - 1].Forgetting? ==> id in ops[n - 1].active)
  {
    var heard := ops[a..n];
    assert heard[..|heard| - 1] == ops[a..n - 1] && heard[|heard| - 1] == ops[n - 1];
    assert StillListed(heard[..|heard| - 1], id);
  }

  lemma LastMatches(c: Rules, a: seq<Op>, b: seq<Op>, x: Op, y: Op)
    requires AllMatch(c, a + [x], b + [y])
    ensures AllMatch(c, a, b) && Matches(c, x, y)
  {
    assert forall i :: 0 <= i < |a| ==> a[i] == (a + [x])[i] && b[i] == (b + [y])[i];
    assert x == (a + [x])[|a|] && y == (b + [y])[|b|];
  }

  lemma SomethingTold(c: Rules, run: Run, a: nat, n: nat, s: Stream, j: Job, k: nat, tail: seq<Op>)
    requires Follows(c, run, a, n, s, j, k, tail) && (0 < k || tail != [])
    ensures a < n
  {
    assert |Told(run.ops[a..n], j.id)| == 2 * k + |tail|;
    assert run.ops[n..n] == [];
  }

  // One step back: what was told before operation n - 1.
  lemma Before(c: Rules, run: Run, a: nat, n: nat, s: Stream, j: Job, k: nat, delivered: bool)
    requires Follows(c, run, a, n, s, j, k, if delivered then [Delivered(s, j, k)] else [])
    requires a < n
    ensures var op := run.ops[n - 1];
      if !Tells(op, j.id) then
        && Follows(c, run, a, n - 1, s, j, k, if delivered then [Delivered(s, j, k)] else [])
        && (op.Forgetting? ==> j.id in op.active)
      else if delivered then Matches(c, op, Delivered(s, j, k)) && Follows(c, run, a, n - 1, s, j, k, [])
      else 0 < k && Matches(c, op, Judging(s, j, k - 1)) && Follows(c, run, a, n - 1, s, j, k - 1, [Delivered(s, j, k - 1)])
  {
    var op, told := run.ops[n - 1], Told(run.ops[a..n - 1], j.id);
    ToldStep(run.ops, a, n, j.id);
    assert |Told(run.ops[a..n], j.id)| == 2 * k + if delivered then 1 else 0;
    if Tells(op, j.id) {
      if delivered {
        LastMatches(c, told, Cycles(s, j, k), op, Delivered(s, j, k));
        assert Cycles(s, j, k) + [] == Cycles(s, j, k);
      } else if k == 0 {
        assert false;
      } else {
        var earlier := Cycles(s, j, k - 1) + [Delivered(s, j, k - 1)];
        assert Cycles(s, j, k) + [] == earlier + [Judging(s, j, k - 1)];
        LastMatches(c, told, earlier, op, Judging(s, j, k - 1));
      }
    } else {
      assert told + [] == told;
    }
  }

  // So what is kept of the job is known at every point.
  lemma {:induction false} KeptWhen(c: Rules, run: Run, a: nat, n: nat, s: Stream, j: Job, k: nat, delivered: bool)
    requires Follows(c, run, a, n, s, j, k, if delivered then [Delivered(s, j, k)] else [])
    ensures Keeps(c, run.ms[n], s, j, if delivered then k else k - 1)
    decreases n
  {
    if a == n {
      assert run.ops[a..n] == [];
      assert |Cycles(s, j, k)| == 0;
    } else {
      Before(c, run, a, n, s, j, k, delivered);
      if !Tells(run.ops[n - 1], j.id) {
        KeptWhen(c, run, a, n - 1, s, j, k, delivered);
        StepKeeps(c, run, n - 1, j);
      } else if delivered {
        KeptWhen(c, run, a, n - 1, s, j, k, false);
        DeliveryKept(c, run, n - 1, s, j, k);
      } else {
        KeptWhen(c, run, a, n - 1, s, j, k - 1, true);
        JudgementKept(c, run, n - 1, s, j, k - 1);
      }
    }
  }

  lemma DeliveryKept(c: Rules, run: Run, n: nat, s: Stream, j: Job, k: nat)
    requires IsRun(c, run) && c.t.Valid() && Steady(c.t, s, j) && n < |run.ops|
    requires Matches(c, run.ops[n], Delivered(s, j, k)) && Keeps(c, run.ms[n], s, j, k - 1)
    ensures Keeps(c, run.ms[n + 1], s, j, k)
  {
    StampOrder(s, 0, k);
    StepStored(c, run, n, s, j, k);
    if k == 0 {
      FirstWindow(c.t, s, j);
    } else {
      KeptWindow(c.t, s, j, k);
    }
  }

  // A record from which something is kept exists.
  lemma KeptHolds(c: Rules, m: Memory, s: Stream, j: Job, k: nat)
    requires c.t.Valid() && Steady(c.t, s, j) && Keeps(c, m, s, j, k)
    ensures Holds(m, j.id, j.startTime) && m.jobs[j.id].samples == KeptAfter(c.t, s, k) != []
  {
    WindowIsNotEmpty(c.t, s, j, OldestKept(c.t, s.interval, k), k);
  }

  lemma JudgementKept(c: Rules, run: Run, n: nat, s: Stream, j: Job, k: nat)
    requires IsRun(c, run) && c.t.Valid() && !c.exempt(j) && Steady(c.t, s, j) && n < |run.ops|
    requires Matches(c, run.ops[n], Judging(s, j, k)) && Keeps(c, run.ms[n], s, j, k)
    ensures Keeps(c, run.ms[n + 1], s, j, k)
  {
    StampOrder(s, 0, k);
    KeptHolds(c, run.ms[n], s, j, k);
    JudgedWhen(c, run, n);
  }

  // Operation n judges cycle k.
  ghost predicate JudgesCycle(c: Rules, run: Run, a: nat, n: nat, s: Stream, j: Job, k: nat) {
    && Follows(c, run, a, n, s, j, k, [Delivered(s, j, k)])
    && n < |run.ops| && Matches(c, run.ops[n], Judging(s, j, k))
  }

  // Cycle k confirms the breach.
  predicate ConfirmedAt(t: Thresholds, interval: Duration, k: nat)
    requires t.Valid() && 0 < interval
  {
    FitsWindow(t, interval) && FirstConfirmed(t, interval) <= k
  }

  // For any thresholds an engine can be built with, accepted by the validator or
  // not, and in any run, whatever the engine hears of other jobs: a steady stream is
  // confirmed exactly at these cycles.
  lemma ConfirmedFrom(c: Rules, run: Run, a: nat, n: nat, s: Stream, j: Job, k: nat)
    requires JudgesCycle(c, run, a, n, s, j, k) && s.interval < c.t.maxSampleGap
    ensures run.fs[n].reason == Breach <==> ConfirmedAt(c.t, s.interval, k)
  {
    var lo := OldestKept(c.t, s.interval, k);
    StampOrder(s, 0, k);
    KeptWhen(c, run, a, n, s, j, k, true);
    KeptHolds(c, run.ms[n], s, j, k);
    JudgedWhen(c, run, n);
    WindowConfirms(c.t, s, j, lo, k);
    EnoughFromThenOn(c.t, s, k);
  }

  // Under an accepted configuration a steady stream is confirmed from cycle
  // FirstConfirmed on and not before, and has a verdict exactly then, if the
  // sample count fits the window; if it does not, never.
  lemma SteadyBreachIsConfirmed(settings: Settings, exempt: Job -> bool, run: Run, a: nat, n: nat, s: Stream, j: Job, k: nat)
    requires Acceptable(settings) && s.interval == settings.interval
    requires JudgesCycle(RulesOf(settings, exempt), run, a, n, s, j, k)
    ensures var f, confirmed := run.fs[n],
        FitsWindow(settings.thresholds, s.interval) && FirstConfirmed(settings.thresholds, s.interval) <= k;
      && (f.reason == Breach <==> confirmed)
      && (f.verdict != Healthy <==> confirmed)
  {
    AcceptableTiming(settings);
    ConfirmedFrom(RulesOf(settings, exempt), run, a, n, s, j, k);
    BreachIsVisible(settings, exempt, run, n);
  }

  // As shipped, a steady breach is confirmed from its tenth sample on, eighteen
  // minutes after the first.
  lemma DefaultsConfirm(exempt: Job -> bool, run: Run, a: nat, n: nat, s: Stream, j: Job, k: nat)
    requires s.interval == 120_000_000_000
    requires JudgesCycle(RulesOf(DEFAULT_SETTINGS, exempt), run, a, n, s, j, k)
    ensures run.fs[n].verdict != Healthy <==> 9 <= k
  {
    DefaultsAreAcceptable();
    SteadyBreachIsConfirmed(DEFAULT_SETTINGS, exempt, run, a, n, s, j, k);
  }

  lemma AcceptableTiming(settings: Settings)
    requires Acceptable(settings)
    ensures settings.thresholds.Valid() && 0 < settings.interval < settings.thresholds.maxSampleGap
  {
  }

  // Under an accepted configuration every confirmed breach has a verdict, and
  // nothing else has.
  lemma BreachIsVisible(settings: Settings, exempt: Job -> bool, run: Run, n: nat)
    requires Acceptable(settings) && IsRun(RulesOf(settings, exempt), run) && n < |run.ops| && run.ops[n].Evaluating?
    ensures run.fs[n].verdict != Healthy <==> run.fs[n].reason == Breach
  {
    HealthyWhen(RulesOf(settings, exempt), run, n);
    StagesNeverHealthy(settings, exempt, run.ops[n].now - run.fs[n].breachedSince);
  }

  // ---- What the rule on the sample count is worth ----

  // Where the product of interval and sample count does not overflow, the rule
  // lets through the counts up to the number of intervals in the window: every
  // one of them fits, and it refuses one more that would.
  lemma RuleWithoutOverflow(t: Thresholds, interval: Duration)
    requires 0 < interval && 0 < t.window && 1 <= t.minSamples
    requires t.minSamples * interval < 0x8000_0000_0000_0000
    ensures Wrapped(t.minSamples * interval) <= t.window <==> t.minSamples <= t.window / interval
    ensures FitsWindow(t, interval) <==>
      Wrapped(t.minSamples * interval) <= t.window || t.minSamples == t.window / interval + 1
  {
    Positive(t.minSamples, interval);
    WrappedIsExact(t.minSamples * interval);
    ProductFits(t.minSamples, interval, t.window);
  }

  lemma ProductFits(n: int, step: int, limit: int)
    requires 0 < step
    ensures n * step <= limit <==> n <= limit / step
  {
    var q := limit / step;
    assert q * step <= limit < q * step + step;
    if n <= q {
      Spread(n, q, step);
      Positive(q - n, step);
    } else {
      Spread(q, n, step);
      Positive(n - q, step);
    }
  }

  // Where it overflows, the rule may accept a count that no window can hold.
  const OVERFLOWING := DEFAULT_SETTINGS.(thresholds := DEFAULT_THRESHOLDS.(minSamples := 153_722_868))

  lemma OverflowIsAccepted()
    ensures Acceptable(OVERFLOWING)
    ensures Wrapped(OVERFLOWING.thresholds.minSamples * OVERFLOWING.interval) == 86_290_448_384
    ensures !FitsWindow(OVERFLOWING.thresholds, OVERFLOWING.interval)
  {
  }

  // The daemon then runs and never confirms a breach, however long it lasts.
  lemma OverflowNeverConfirms(exempt: Job -> bool, run: Run, a: nat, n: nat, s: Stream, j: Job, k: nat)
    requires s.interval == OVERFLOWING.interval && JudgesCycle(RulesOf(OVERFLOWING, exempt), run, a, n, s, j, k)
    ensures run.fs[n].verdict == Healthy && run.fs[n].reason != Breach
  {
    OverflowIsAccepted();
    SteadyBreachIsConfirmed(OVERFLOWING, exempt, run, a, n, s, j, k);
  }

  // The other way about: eleven samples every two minutes fit twenty minutes.
  const REFUSED := DEFAULT_SETTINGS.(thresholds := DEFAULT_THRESHOLDS.(minSamples := 11))

  lemma FittingCountIsRefused()
    ensures !Acceptable(REFUSED) && REFUSED.thresholds.Valid()
    ensures FitsWindow(REFUSED.thresholds, REFUSED.interval)
  {
  }
}
