// The evidence behind a verdict over a whole run: not only the window the
// engine still holds, but everything delivered since before the first
// confirmation, most of which it has long since forgotten.
module Contiguity {
  import opened Telemetry
  import opened Policy
  import opened Runs
  import opened Evidence
  import opened Ladder
  import opened Window

  // A readable sample below the threshold.
  predicate Breaches(t: Thresholds, s: Sample) {
    s.Judgeable() && s.util < t.utilPct
  }

  ghost predicate Observed(t: Thresholds, log: seq<Sample>, n: string, x: Time) {
    exists s :: s in log && s.node == n && x <= s.timestamp <= x + t.maxSampleGap
  }

  // The log holds contiguous evidence of a breach from F-Window to E: all of it
  // breaches, and no node goes unobserved for longer than the gap.
  ghost predicate Contiguous(t: Thresholds, j: Job, log: seq<Sample>, F: Time, E: Time) {
    && (forall s :: s in log && F - t.window <= s.timestamp <= E ==> Breaches(t, s))
    && (forall n, x :: n in j.nodes && F - t.window <= x <= E - t.maxSampleGap ==> Observed(t, log, n, x))
  }

  // The two descriptions of a job agree on everything the engine reads of it. Its
  // name, user, account, partition, quality of service and state are not read.
  ghost predicate Alike(c: Rules, a: Job, b: Job) {
    && a.id == b.id && a.startTime == b.startTime
    && a.nodes == b.nodes && a.gpuCount == b.gpuCount
    && c.exempt(a) == c.exempt(b)
  }

  // How the daemon drives the engine about one incarnation of a job: always with
  // what the engine reads of it unchanged, with a clock that does not go back,
  // every delivery judged at once and every judgement preceded by a delivery at
  // the same instant, and with stamps that are neither in the future nor as old
  // as the start of the window.
  ghost predicate Driven(c: Rules, run: Run, j: Job) {
    && IsRun(c, run)
    && c.t.Valid()
    && ClockForward(run, j.id, j.startTime)
    && (forall i :: 0 <= i < |run.ops| && On(run.ops[i], j.id, j.startTime) ==> Alike(c, run.ops[i].j, j))
    && (forall i :: 0 <= i < |run.ops| ==> Paired(run, j, i))
    && (forall i :: 0 <= i < |run.ops| && Delivers(run.ops[i], j.id, j.startTime) ==> FreshStamps(c.t, run.ops[i].samples, run.ops[i].now))
  }

  ghost predicate Paired(run: Run, j: Job, i: nat)
    requires i < |run.ops|
  {
    && (Delivers(run.ops[i], j.id, j.startTime) && i + 1 < |run.ops| ==>
         Judges(run.ops[i + 1], j.id, j.startTime) && run.ops[i + 1].now == run.ops[i].now)
    && (Judges(run.ops[i], j.id, j.startTime) ==>
         0 < i && Delivers(run.ops[i - 1], j.id, j.startTime) && run.ops[i - 1].now == run.ops[i].now)
  }

  ghost predicate FreshStamps(t: Thresholds, samples: seq<Sample>, now: Time) {
    forall s :: s in samples ==> now - (t.window - t.maxSampleGap) < s.timestamp <= now
  }

  // The judgement confirmed a breach on this window.
  ghost predicate Confirmed(t: Thresholds, window: seq<Sample>, j: Job, now: Time) {
    Covered(t, window, j, now) && forall s :: s in window ==> s.util < t.utilPct
  }

  // ---- One confirmation ----

  lemma FirstEvidence(t: Thresholds, j: Job, log: seq<Sample>, now: Time)
    requires t.Valid() && Confirmed(t, Since(log, now - t.window), j, now)
    ensures Contiguous(t, j, log, now, now)
  {
    SinceMembers(log, now - t.window);
    var window := Since(log, now - t.window);
    forall n, x | n in j.nodes && now - t.window <= x <= now - t.maxSampleGap ensures Observed(t, log, n, x) {
      EveryInstantIsObserved(t, window, j, now, n, x);
    }
  }

  // A confirmation at now extends the evidence that ended at E: what lies
  // between is bridged by the oldest observation of the new window, which must
  // have been delivered by E because everything delivered since is fresh.
  lemma MoreEvidence(t: Thresholds, j: Job, log: seq<Sample>, added: seq<Sample>, F: Time, E: Time, now: Time)
    requires t.Valid() && F <= E <= now
    requires Contiguous(t, j, log, F, E) && forall s :: s in log ==> s.timestamp <= E
    requires FreshStamps(t, added, now)
    requires Confirmed(t, Since(log + added, now - t.window), j, now)
    ensures Contiguous(t, j, log + added, F, now)
  {
    SinceMembers(log + added, now - t.window);
    var window := Since(log + added, now - t.window);
    forall s | s in log + added && F - t.window <= s.timestamp <= now ensures Breaches(t, s) {
      if s in added {
        assert s in window;
      }
    }
    forall n, x | n in j.nodes && F - t.window <= x <= now - t.maxSampleGap ensures Observed(t, log + added, n, x) {
      if x <= E - t.maxSampleGap {
        assert Observed(t, log, n, x);
        var s :| s in log && s.node == n && x <= s.timestamp <= x + t.maxSampleGap;
        assert s in log + added;
      } else if now - t.window <= x {
        EveryInstantIsObserved(t, window, j, now, n, x);
      } else {
        assert NodeCovered(t, window, n, now);
        var s :| s in window && s.node == n && s.timestamp <= now - t.window + t.maxSampleGap;
        assert s in log;
      }
    }
  }

  // ---- One judgement ----

  // The record still carries consequences of an earlier confirmation.
  ghost predicate Charged(r: JobRecord) {
    !Blank(r)
  }

  // In a confirmed window that was pruned at now, the earliest sample is about
  // one window old.
  lemma FirstIsRecent(t: Thresholds, counted: seq<Sample>, j: Job, now: Time)
    requires t.Valid() && Confirmed(t, Since(counted, now - t.window), j, now)
    ensures var window := Since(counted, now - t.window);
      window != [] && t.window - t.maxSampleGap <= now - First(window) <= t.window
  {
    var window := Since(counted, now - t.window);
    SinceMembers(counted, now - t.window);
    assert j.nodes[0] in j.nodes && NodeCovered(t, window, j.nodes[0], now);
    var oldest :| oldest in window && oldest.timestamp <= now - t.window + t.maxSampleGap;
    var earliest := FirstIsEarliest(window);
  }

  // What a judgement that confirms a breach means.
  lemma BreachMeans(c: Rules, run: Run, n: nat)
    requires IsRun(c, run) && c.t.Valid() && n < |run.ops| && run.ops[n].Evaluating?
    requires run.fs[n].reason == Breach || run.fs[n].verdict != Healthy
    ensures var j, now, f := run.ops[n].j, run.ops[n].now, run.fs[n];
      && !c.exempt(j) && j.gpuCount != 0 && j.startTime != UNSET && f.reason == Breach
      && Holds(run.ms[n], j.id, j.startTime) && Holds(run.ms[n + 1], j.id, j.startTime)
      && var r, r' := run.ms[n].jobs[j.id], run.ms[n + 1].jobs[j.id];
      && r.samples != [] && Confirmed(c.t, r.samples, j, now)
      && r'.drainConfirmedAt == r.drainConfirmedAt && r'.lastVerdict == f.verdict
      && f.breachedSince == r'.breachedSince
      && r'.breachedSince == if r.breachedSince == UNSET then First(r.samples) else r.breachedSince
  {
    assert Stepped(c, run, n);
    var j := run.ops[n].j;
    var r := RecordFor(run.ms[n], j);
    CoverageIsCovered(c.t, r.samples, j, run.ops[n].now);
    PeakUtilBounds(r.samples, c.t.utilPct);
  }

  // What a judgement that does not, and yet leaves a charge, means.
  lemma QuietMeans(c: Rules, run: Run, n: nat, j: Job)
    requires IsRun(c, run) && n < |run.ops| && run.ops[n].Evaluating? && Alike(c, run.ops[n].j, j)
    requires !c.exempt(j) && j.gpuCount != 0
    requires run.fs[n].reason != Breach && Holds(run.ms[n + 1], j.id, j.startTime) && Charged(run.ms[n + 1].jobs[j.id])
    ensures Holds(run.ms[n], j.id, j.startTime) && run.ms[n].jobs[j.id] == run.ms[n + 1].jobs[j.id]
    ensures run.ops[n].now - j.startTime < c.t.warmup || run.ms[n].jobs[j.id].samples == []
  {
    assert Stepped(c, run, n);
  }

  lemma NothingCounted(t: Thresholds, start: Time, samples: seq<Sample>, counted: seq<Sample>, now: Time)
    requires t.Valid() && FreshStamps(t, Admitted(t, start, samples), now)
    requires forall s :: s in Admitted(t, start, samples) ==> s in counted
    requires now - start < t.warmup || Since(counted, now - t.window) == []
    ensures Admitted(t, start, samples) == []
  {
    var added := Admitted(t, start, samples);
    assert added == [] || added[0] in added;
    AdmittedMembers(t, start, samples);
    SinceMembers(counted, now - t.window);
    assert forall s :: s in added ==> s in Since(counted, now - t.window) && t.warmup <= now - start;
  }

  // The charge rests on contiguous evidence up to the judgement at E, and
  // nothing that counts came later.
  ghost predicate SupportedBy(t: Thresholds, j: Job, counted: seq<Sample>, r: JobRecord, F: Time, E: Time) {
    && F <= E
    && Contiguous(t, j, counted, F, E)
    && (forall s :: s in counted ==> s.timestamp <= E)
    && (r.drainConfirmedAt != UNSET ==> F <= r.drainConfirmedAt)
    && (r.breachedSince != UNSET ==> F - t.window <= r.breachedSince)
  }

  lemma ConfirmedIsSupported(t: Thresholds, j: Job, counted: seq<Sample>, added: seq<Sample>, r: JobRecord, r': JobRecord,
                             F: Time, E: Time, now: Time) returns (F': Time)
    requires t.Valid() && FreshStamps(t, added, now) && forall s :: s in counted + added ==> s.timestamp <= now
    requires Charged(r) ==> SupportedBy(t, j, counted, r, F, E) && E <= now
    requires Confirmed(t, Since(counted + added, now - t.window), j, now)
    requires r'.drainConfirmedAt == r.drainConfirmedAt
    requires r.breachedSince == UNSET ==> now - r'.breachedSince <= t.window
    requires r.breachedSince != UNSET ==> r'.breachedSince == r.breachedSince
    ensures SupportedBy(t, j, counted + added, r', F', now)
  {
    if Charged(r) {
      F' := F;
      MoreEvidence(t, j, counted, added, F, E, now);
    } else {
      F' := now;
      FirstEvidence(t, j, counted + added, now);
    }
  }

  // ---- Over a run ----

  ghost function Record(c: Rules, run: Run, n: nat, j: Job): JobRecord
    requires IsRun(c, run) && n <= |run.ops|
  {
    RecordFor(run.ms[n], j)
  }

  // Everything that counts among what was delivered to the record.
  ghost function Counted(c: Rules, run: Run, n: nat, j: Job): seq<Sample>
    requires IsRun(c, run) && n <= |run.ops|
  {
    Admitted(c.t, j.startTime, Log(c, run, n, j.id, j.startTime))
  }

  // What holds between judgements, the last confirming one being at index e.
  ghost predicate Supported(c: Rules, run: Run, n: nat, j: Job, F: Time, e: nat)
    requires IsRun(c, run) && n <= |run.ops|
  {
    && e < n && Judges(run.ops[e], j.id, j.startTime)
    && SupportedBy(c.t, j, Counted(c, run, n, j), Record(c, run, n, j), F, run.ops[e].now)
  }

  ghost predicate Settled(run: Run, n: nat, j: Job)
    requires n <= |run.ops|
  {
    n > 0 ==> !Delivers(run.ops[n - 1], j.id, j.startTime)
  }

  // Nothing in the log is stamped after the last delivery.
  lemma {:induction false} LogIsPast(c: Rules, run: Run, n: nat, j: Job)
    requires Driven(c, run, j) && n <= |run.ops| && Holds(run.ms[n], j.id, j.startTime)
    ensures forall s :: s in Log(c, run, n, j.id, j.startTime) ==> s.timestamp <= LastObserved(c, run, n, j.id, j.startTime)
  {
    var op := run.ops[n - 1];
    StepStores(c, run, n - 1, j.id, j.startTime);
    if Holds(run.ms[n - 1], j.id, j.startTime) {
      LogIsPast(c, run, n - 1, j);
      var i := LastDelivery(c, run, n - 1, j.id, j.startTime);
    }
    if Delivers(op, j.id, j.startTime) {
      assert FreshStamps(c.t, op.samples, op.now);
    }
  }

  // What a delivery stores, and that it charges nothing.
  lemma DeliveryStores(c: Rules, run: Run, i: nat, j: Job)
    requires Driven(c, run, j) && i < |run.ops| && Delivers(run.ops[i], j.id, j.startTime)
    ensures Holds(run.ms[i + 1], j.id, j.startTime)
    ensures Counted(c, run, i + 1, j) == Counted(c, run, i, j) + Admitted(c.t, j.startTime, run.ops[i].samples)
    ensures SameCharge(Record(c, run, i + 1, j), Record(c, run, i, j))
  {
    assert Stepped(c, run, i);
    AdmittedAppend(c.t, j.startTime, Log(c, run, i, j.id, j.startTime), run.ops[i].samples);
  }

  lemma DeliveryIsPast(c: Rules, run: Run, i: nat, j: Job)
    requires Driven(c, run, j) && i < |run.ops| && Delivers(run.ops[i], j.id, j.startTime)
    requires Holds(run.ms[i + 1], j.id, j.startTime)
    ensures forall s :: s in Counted(c, run, i + 1, j) ==> s.timestamp <= run.ops[i].now
    ensures FreshStamps(c.t, Admitted(c.t, j.startTime, run.ops[i].samples), run.ops[i].now)
  {
    LogIsPast(c, run, i + 1, j);
    AdmittedMembers(c.t, j.startTime, Log(c, run, i + 1, j.id, j.startTime));
    AdmittedMembers(c.t, j.startTime, run.ops[i].samples);
  }

  // The delivery of one cycle, just before it is judged.
  lemma Delivery(c: Rules, run: Run, i: nat, j: Job)
    requires Driven(c, run, j) && i < |run.ops| && Delivers(run.ops[i], j.id, j.startTime)
    ensures var counted := Counted(c, run, i + 1, j);
      && Holds(run.ms[i + 1], j.id, j.startTime)
      && counted == Counted(c, run, i, j) + Admitted(c.t, j.startTime, run.ops[i].samples)
      && Record(c, run, i + 1, j).samples == Since(counted, run.ops[i].now - c.t.window)
      && (forall s :: s in counted ==> s.timestamp <= run.ops[i].now)
      && FreshStamps(c.t, Admitted(c.t, j.startTime, run.ops[i].samples), run.ops[i].now)
      && SameCharge(Record(c, run, i + 1, j), Record(c, run, i, j))
  {
    DeliveryStores(c, run, i, j);
    DeliveryIsPast(c, run, i, j);
    WindowIsFilteredLog(c, run, i + 1, j.id, j.startTime);
  }

  // A judgement delivers nothing.
  lemma JudgedLog(c: Rules, run: Run, n: nat, j: Job)
    requires IsRun(c, run) && n < |run.ops| && run.ops[n].Evaluating? && Holds(run.ms[n + 1], j.id, j.startTime)
    ensures Counted(c, run, n + 1, j) == Counted(c, run, n, j)
  {
    var log := Log(c, run, n, j.id, j.startTime);
    StepStores(c, run, n, j.id, j.startTime);
    assert log + [] == log;
  }

  // One delivery and its judgement together.
  ghost predicate Cycle(run: Run, i: nat, j: Job) {
    && i + 1 < |run.ops|
    && Delivers(run.ops[i], j.id, j.startTime)
    && Judges(run.ops[i + 1], j.id, j.startTime) && run.ops[i].now == run.ops[i + 1].now
  }

  lemma BreachCycle(c: Rules, run: Run, i: nat, j: Job)
    requires Driven(c, run, j) && Cycle(run, i, j) && run.fs[i + 1].reason == Breach
    ensures var now, counted := run.ops[i].now, Counted(c, run, i + 1, j);
      var r, r' := Record(c, run, i, j), Record(c, run, i + 2, j);
      && Confirmed(c.t, Since(counted, now - c.t.window), j, now)
      && r'.drainConfirmedAt == r.drainConfirmedAt && run.fs[i + 1].breachedSince == r'.breachedSince
      && (r.breachedSince == UNSET ==> c.t.window - c.t.maxSampleGap <= now - r'.breachedSince <= c.t.window)
      && (r.breachedSince != UNSET ==> r'.breachedSince == r.breachedSince)
  {
    Delivery(c, run, i, j);
    BreachMeans(c, run, i + 1);
    FirstIsRecent(c.t, Counted(c, run, i + 1, j), j, run.ops[i].now);
  }

  lemma QuietCycle(c: Rules, run: Run, i: nat, j: Job)
    requires Driven(c, run, j) && !c.exempt(j) && j.gpuCount != 0 && Cycle(run, i, j)
    requires run.fs[i + 1].reason != Breach && Charged(Record(c, run, i + 2, j))
    ensures SameCharge(Record(c, run, i, j), Record(c, run, i + 2, j))
    ensures Admitted(c.t, j.startTime, run.ops[i].samples) == []
  {
    Delivery(c, run, i, j);
    QuietMeans(c, run, i + 1, j);
    NothingCounted(c.t, j.startTime, run.ops[i].samples, Counted(c, run, i + 1, j), run.ops[i].now);
  }

  // A job with a charge on its record: the charge is supported by contiguous
  // evidence since a window before the first confirmation.
  lemma {:induction false} ChargeIsSupported(c: Rules, run: Run, n: nat, j: Job) returns (F: Time, e: nat)
    requires Driven(c, run, j) && !c.exempt(j) && j.gpuCount != 0
    requires n <= |run.ops| && Settled(run, n, j) && Charged(Record(c, run, n, j))
    ensures Supported(c, run, n, j, F, e)
    ensures Judges(run.ops[n - 1], j.id, j.startTime) && run.fs[n - 1].reason == Breach ==> e == n - 1
    decreases n, 1
  {
    var op := run.ops[n - 1];
    if Judges(op, j.id, j.startTime) {
      assert Paired(run, j, n - 1);
      F, e := JudgedCharge(c, run, n - 2, j);
    } else {
      F, e := UntouchedCharge(c, run, n, j);
    }
  }

  // What the record carried before a cycle was supported by a judgement no later
  // than the cycle.
  ghost predicate SupportedBefore(c: Rules, run: Run, i: nat, j: Job, F: Time, e: nat)
    requires IsRun(c, run) && i < |run.ops| && run.ops[i].Observing?
  {
    Supported(c, run, i, j, F, e) && run.ops[e].now <= run.ops[i].now
  }

  lemma {:induction false} EarlierCharge(c: Rules, run: Run, i: nat, j: Job) returns (F: Time, e: nat)
    requires Driven(c, run, j) && !c.exempt(j) && j.gpuCount != 0
    requires Cycle(run, i, j) && Charged(Record(c, run, i, j))
    ensures SupportedBefore(c, run, i, j, F, e)
    decreases i, 2
  {
    assert Settled(run, i, j) by {
      if i > 0 { assert Paired(run, j, i - 1); }
    }
    F, e := ChargeIsSupported(c, run, i, j);
    assert On(run.ops[e], j.id, j.startTime) && On(run.ops[i], j.id, j.startTime);
  }

  lemma ConfirmedBy(c: Rules, run: Run, i: nat, j: Job, F: Time, E: Time) returns (F': Time)
    requires Driven(c, run, j) && Cycle(run, i, j) && run.fs[i + 1].reason == Breach
    requires Charged(Record(c, run, i, j)) ==> SupportedBy(c.t, j, Counted(c, run, i, j), Record(c, run, i, j), F, E) && E <= run.ops[i].now
    ensures SupportedBy(c.t, j, Counted(c, run, i + 1, j), Record(c, run, i + 2, j), F', run.ops[i].now)
  {
    Delivery(c, run, i, j);
    BreachCycle(c, run, i, j);
    F' := ConfirmedIsSupported(c.t, j, Counted(c, run, i, j), Admitted(c.t, j.startTime, run.ops[i].samples),
                               Record(c, run, i, j), Record(c, run, i + 2, j), F, E, run.ops[i].now);
  }

  // A cycle that confirms the breach supports the charge up to itself.
  lemma ConfirmedCycle(c: Rules, run: Run, i: nat, j: Job, F: Time, e: nat) returns (F': Time)
    requires Driven(c, run, j) && Cycle(run, i, j) && run.fs[i + 1].reason == Breach
    requires Charged(Record(c, run, i, j)) ==> SupportedBefore(c, run, i, j, F, e)
    ensures Supported(c, run, i + 2, j, F', i + 1)
  {
    assert Counted(c, run, i + 2, j) == Counted(c, run, i + 1, j) by {
      BreachMeans(c, run, i + 1);
      JudgedLog(c, run, i + 1, j);
    }
    F' := ConfirmedBy(c, run, i, j, F, if Charged(Record(c, run, i, j)) then run.ops[e].now else run.ops[i].now);
  }

  // A cycle that neither confirms nor wipes leaves the charge supported as it was.
  lemma UnconfirmedCycle(c: Rules, run: Run, i: nat, j: Job, F: Time, e: nat)
    requires Driven(c, run, j) && !c.exempt(j) && j.gpuCount != 0
    requires Cycle(run, i, j) && run.fs[i + 1].reason != Breach && Charged(Record(c, run, i + 2, j))
    requires Charged(Record(c, run, i, j)) ==> SupportedBefore(c, run, i, j, F, e)
    ensures Supported(c, run, i + 2, j, F, e)
  {
    Delivery(c, run, i, j);
    QuietCycle(c, run, i, j);
    JudgedLog(c, run, i + 1, j);
    assert Counted(c, run, i, j) + [] == Counted(c, run, i, j);
  }

  lemma {:induction false} JudgedCharge(c: Rules, run: Run, i: nat, j: Job) returns (F: Time, e: nat)
    requires Driven(c, run, j) && !c.exempt(j) && j.gpuCount != 0
    requires Cycle(run, i, j) && Charged(Record(c, run, i + 2, j))
    ensures Supported(c, run, i + 2, j, F, e)
    ensures run.fs[i + 1].reason == Breach ==> e == i + 1
    decreases i, 3
  {
    F, e := 0, 0;
    if Charged(Record(c, run, i, j)) {
      F, e := EarlierCharge(c, run, i, j);
    }
    if run.fs[i + 1].reason == Breach {
      F := ConfirmedCycle(c, run, i, j, F, e);
      e := i + 1;
    } else {
      UnconfirmedCycle(c, run, i, j, F, e);
    }
  }

  lemma {:induction false} UntouchedCharge(c: Rules, run: Run, n: nat, j: Job) returns (F: Time, e: nat)
    requires Driven(c, run, j) && !c.exempt(j) && j.gpuCount != 0
    requires n <= |run.ops| && Settled(run, n, j) && Charged(Record(c, run, n, j))
    requires n > 0 ==> !Judges(run.ops[n - 1], j.id, j.startTime)
    ensures n > 0 && Supported(c, run, n, j, F, e)
    decreases n, 0
  {
    var op, id, start := run.ops[n - 1], j.id, j.startTime;
    StepMoves(c, run, n - 1, id, start);
    StepStores(c, run, n - 1, id, start);
    assert Settled(run, n - 1, j) by {
      if n > 1 { assert Paired(run, j, n - 2); }
    }
    F, e := ChargeIsSupported(c, run, n - 1, j);
    var log := Log(c, run, n - 1, id, start);
    assert log + [] == log;
    assert On(run.ops[e], id, start);
    if op.Confirming? && On(op, id, start) {
      assert run.ops[e].now <= op.at;
    }
  }

  // Every Cancel of a driven job at T rests on a drain confirmed at least one
  // window ago, in the same incarnation, with the record never wiped since, and
  // on contiguous evidence from a window before that confirmation until T.
  lemma CancelIsSupported(c: Rules, run: Run, n: nat, j: Job) returns (k: nat, D: Time)
    requires Driven(c, run, j) && n < |run.ops| && Judges(run.ops[n], j.id, j.startTime)
    requires run.fs[n].verdict == Cancel
    ensures k < n && Confirms(run.ops[k], j.id, j.startTime, D) && D <= run.ops[n].now - c.t.window
    ensures forall m :: k < m <= n ==> DrainedAt(run.ms[m], j.id, j.startTime, D)
    ensures Contiguous(c.t, j, Counted(c, run, n, j), D, run.ops[n].now)
  {
    var a, d;
    a, d, k, D := CancelFollowsDrain(c, run, n);
    var F := VerdictIsSupported(c, run, n, j);
  }

  // Every verdict at all rests on contiguous evidence over its own window, and
  // over the whole time since the drain, if one was confirmed.
  lemma VerdictIsSupported(c: Rules, run: Run, n: nat, j: Job) returns (F: Time)
    requires Driven(c, run, j) && n < |run.ops| && Judges(run.ops[n], j.id, j.startTime)
    requires run.fs[n].verdict != Healthy
    ensures F <= run.ops[n].now && Contiguous(c.t, j, Counted(c, run, n, j), F, run.ops[n].now)
    ensures Record(c, run, n, j).drainConfirmedAt != UNSET ==> F <= Record(c, run, n, j).drainConfirmedAt
  {
    var e;
    assert Paired(run, j, n);
    BreachMeans(c, run, n);
    JudgedLog(c, run, n, j);
    F, e := ChargeIsSupported(c, run, n + 1, j);
  }

  // ---- Bounds on when things happen ----

  // At the first confirmation of a breach its dwell is already about a window.
  lemma FirstDwell(c: Rules, run: Run, n: nat, j: Job)
    requires Driven(c, run, j) && n < |run.ops| && Judges(run.ops[n], j.id, j.startTime)
    requires run.fs[n].reason == Breach && Record(c, run, n, j).breachedSince == UNSET
    ensures c.t.window - c.t.maxSampleGap <= run.ops[n].now - run.fs[n].breachedSince <= c.t.window
  {
    assert Paired(run, j, n);
    Delivery(c, run, n - 1, j);
    BreachCycle(c, run, n - 1, j);
  }

  lemma {:induction false} StoredIsPastWarmup(c: Rules, run: Run, n: nat, id: string, start: Time)
    requires IsRun(c, run) && n <= |run.ops| && Holds(run.ms[n], id, start)
    ensures forall s :: s in run.ms[n].jobs[id].samples ==> start != UNSET && start + c.t.warmup <= s.timestamp
  {
    var op, m := run.ops[n - 1], run.ms[n - 1];
    StepStores(c, run, n - 1, id, start);
    if Holds(m, id, start) {
      StoredIsPastWarmup(c, run, n - 1, id, start);
    }
    if Delivers(op, id, start) {
      var before := if Holds(m, id, start) then m.jobs[id].samples else [];
      AdmittedMembers(c.t, start, op.samples);
      SinceMembers(before + Admitted(c.t, start, op.samples), op.now - c.t.window);
    }
  }

  // In no run at all, whatever the clock does, is there a verdict before the
  // warmup and a window less the gap have passed.
  lemma NoVerdictBefore(c: Rules, run: Run, n: nat)
    requires IsRun(c, run) && c.t.Valid() && n < |run.ops| && run.ops[n].Evaluating? && run.fs[n].verdict != Healthy
    ensures run.ops[n].j.startTime + c.t.warmup + c.t.window - c.t.maxSampleGap <= run.ops[n].now
  {
    var j, now := run.ops[n].j, run.ops[n].now;
    BreachMeans(c, run, n);
    StoredIsPastWarmup(c, run, n, j.id, j.startTime);
    var window := run.ms[n].jobs[j.id].samples;
    assert j.nodes[0] in j.nodes && NodeCovered(c.t, window, j.nodes[0], now);
    var oldest :| oldest in window && oldest.timestamp <= now - c.t.window + c.t.maxSampleGap;
  }

  lemma NoCancelBefore(c: Rules, run: Run, n: nat)
    requires IsRun(c, run) && c.t.Valid() && n < |run.ops| && run.ops[n].Evaluating? && run.fs[n].verdict == Cancel
    requires ClockForward(run, run.ops[n].j.id, run.ops[n].j.startTime)
    ensures run.ops[n].j.startTime + c.t.warmup + 2 * c.t.window - c.t.maxSampleGap <= run.ops[n].now
  {
    var a, d, k, D := CancelFollowsDrain(c, run, n);
    NoVerdictBefore(c, run, d);
    assert On(run.ops[d], run.ops[n].j.id, run.ops[n].j.startTime) && On(run.ops[k], run.ops[n].j.id, run.ops[n].j.startTime);
  }

  // ---- Quarantine by one bad sample ----

  // As long as a busy or unreadable sample is no older than a window, every
  // evaluation of the record it was delivered to is Healthy.
  lemma BadSampleKeepsHealthy(c: Rules, run: Run, n: nat, j: Job, bad: Sample)
    requires IsRun(c, run) && c.t.Valid() && ClockForward(run, j.id, j.startTime)
    requires n < |run.ops| && Judges(run.ops[n], j.id, j.startTime)
    requires bad in Counted(c, run, n, j) && !Breaches(c.t, bad) && run.ops[n].now <= bad.timestamp + c.t.window
    ensures run.fs[n].verdict == Healthy
  {
    var id, start := j.id, j.startTime;
    if run.fs[n].verdict != Healthy {
      BreachMeans(c, run, n);
      WindowIsFilteredLog(c, run, n, id, start);
      var i := LastDelivery(c, run, n, id, start);
      assert On(run.ops[n], id, start);
      SinceMembers(Counted(c, run, n, j), LastObserved(c, run, n, id, start) - c.t.window);
      assert false;
    }
  }

  // A breach clock that is running started strictly after every bad sample
  // delivered to the record.
  lemma BreachStartsAfterBadSample(c: Rules, run: Run, n: nat, j: Job, bad: Sample)
    requires Driven(c, run, j) && !c.exempt(j) && j.gpuCount != 0
    requires n <= |run.ops| && Settled(run, n, j) && Record(c, run, n, j).breachedSince != UNSET
    requires bad in Counted(c, run, n, j) && !Breaches(c.t, bad)
    ensures bad.timestamp < Record(c, run, n, j).breachedSince
  {
    var F, e := ChargeIsSupported(c, run, n, j);
  }
}
