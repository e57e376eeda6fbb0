// What the policy engine computes, as functions on values. The classes in
// Engines.dfy change state step by step and are proved against these functions;
// the theorems about whole runs are proved about them too.
module Policy {
  import opened Telemetry

  // The escalation ladder, in order.
  datatype Verdict = Healthy | Watching | Alert | Drain | Cancel {
    function Rank(): nat {
      match this
      case Healthy => 0
      case Watching => 1
      case Alert => 2
      case Drain => 3
      case Cancel => 4
    }

    predicate Below(v: Verdict) {
      Rank() < v.Rank()
    }
  }

  datatype Signature = Idle | Hung | Starved | Unknown

  datatype Thresholds = Thresholds(
    utilPct: real,
    memHeldFraction: real,
    idlePowerWatts: real,
    window: Duration,
    warmup: Duration,
    minSamples: int,
    maxSampleGap: Duration)
  {
    // What the constructor of the engine insists on.
    predicate Valid() {
      && 0 < window
      && 1 <= minSamples
      && 0 < maxSampleGap < window
      && 0.0 < utilPct <= 100.0
    }
  }

  datatype Stage = Stage(after: Duration, verdict: Verdict)

  // What an engine is built from. Exemption matching is a fixed predicate.
  datatype Rules = Rules(t: Thresholds, stages: seq<Stage>, exempt: Job -> bool)

  // The memory kept for one incarnation (job ID and start time) of a job.
  datatype JobRecord = JobRecord(
    startTime: Time,
    samples: seq<Sample>,
    breachedSince: Time,
    lastVerdict: Verdict,
    drainConfirmedAt: Time,
    accountedUntil: Time)
  {
    function Reset(): JobRecord {
      JobRecord(startTime, samples, UNSET, Healthy, UNSET, UNSET)
    }
  }

  function FreshRecord(startTime: Time): JobRecord {
    JobRecord(startTime, [], UNSET, Healthy, UNSET, UNSET)
  }

  // The whole memory of an engine: one record per job ID, and the signatures
  // a Cancel stage applies to.
  datatype Memory = Memory(jobs: map<string, JobRecord>, cancellable: set<Signature>)

  datatype Reason =
    | NoGPUs | Exempt | StartUnknown | WithinWarmup | NoEvidence
    | Hole(fault: Fault) | Busy | Breach

  datatype Fault =
    | Sound | NotJudgeable | NoNodes | NoSamples | VaryingGPUs | TooFewObservations
    | Stale | NotYetCovered | Gap | TooFewGPUs

  datatype Finding = Finding(
    job: Job,
    verdict: Verdict,
    signature: Signature,
    reason: Reason,
    meanUtil: real,
    peakUtil: real,
    memHeld: real,
    meanPower: real,
    powerKnown: bool,
    breachedSince: Time,
    observations: int,
    gpus: nat,
    wastedGPUHours: real,
    wastedGPUSeconds: real,
    drainConfirmed: bool,
    recoveredAfterDrain: bool)

  function NotJudged(j: Job, reason: Reason): Finding {
    Finding(j, Healthy, Unknown, reason, 0.0, 0.0, 0.0, 0.0, false, UNSET, 0, 0, 0.0, 0.0, false, false)
  }

  // ---- The sample window ----

  // The samples stamped at or after the cutoff, in order.
  function Since(samples: seq<Sample>, cutoff: Time): seq<Sample> {
    if samples == [] then []
    else
      var last := samples[|samples| - 1];
      var rest := Since(samples[..|samples| - 1], cutoff);
      if cutoff <= last.timestamp then rest + [last] else rest
  }

  lemma {:induction false} SinceMembers(samples: seq<Sample>, cutoff: Time)
    ensures forall s :: s in Since(samples, cutoff) <==> s in samples && cutoff <= s.timestamp
  {
    if samples != [] {
      var rest, last := samples[..|samples| - 1], samples[|samples| - 1];
      assert samples == rest + [last];
      assert forall s :: s in samples <==> s in rest || s == last;
      SinceMembers(rest, cutoff);
    }
  }

  lemma SinceLast(samples: seq<Sample>, cutoff: Time)
    requires samples != []
    ensures var last := samples[|samples| - 1];
      Since(samples, cutoff) == Since(samples[..|samples| - 1], cutoff) + if cutoff <= last.timestamp then [last] else []
  {
  }

  lemma {:induction false} SinceAppend(a: seq<Sample>, b: seq<Sample>, cutoff: Time)
    ensures Since(a + b, cutoff) == Since(a, cutoff) + Since(b, cutoff)
  {
    if b == [] {
      assert a + b == a;
    } else {
      var n := |b| - 1;
      var whole := a + b;
      assert whole[..|whole| - 1] == a + b[..n] && whole[|whole| - 1] == b[n];
      SinceAppend(a, b[..n], cutoff);
      SinceLast(whole, cutoff);
      SinceLast(b, cutoff);
    }
  }

  lemma {:induction false} SinceTwice(a: seq<Sample>, first: Time, second: Time)
    ensures Since(Since(a, first), second) == Since(a, if first < second then second else first)
  {
    if a != [] {
      var n := |a| - 1;
      SinceTwice(a[..n], first, second);
      SinceAppend(Since(a[..n], first), [a[n]], second);
      assert Since([a[n]], second) == if second <= a[n].timestamp then [a[n]] else [] by {
        assert [a[n]][..0] == [];
      }
    }
  }

  // The delivered samples that may ever count for a job started at that time.
  function Admitted(t: Thresholds, startTime: Time, samples: seq<Sample>): seq<Sample> {
    if startTime == UNSET then [] else Since(samples, startTime + t.warmup)
  }

  lemma AdmittedMembers(t: Thresholds, startTime: Time, samples: seq<Sample>)
    ensures forall s :: s in Admitted(t, startTime, samples) <==>
      startTime != UNSET && s in samples && startTime + t.warmup <= s.timestamp
  {
    SinceMembers(samples, startTime + t.warmup);
  }

  // ---- Coverage ----

  function Times(samples: seq<Sample>, n: string): set<Time> {
    set s | s in samples && s.node == n :: s.timestamp
  }

  function GPUs(samples: seq<Sample>): set<(string, int)> {
    set s | s in samples :: (s.node, s.gpu)
  }

  // How many samples of node n carry the stamp at.
  function Count(samples: seq<Sample>, n: string, at: Time): nat {
    if samples == [] then 0
    else
      var last := samples[|samples| - 1];
      Count(samples[..|samples| - 1], n, at) + if last.node == n && last.timestamp == at then 1 else 0
  }

  predicate Uniform(samples: seq<Sample>, n: string) {
    forall a, b :: a in Times(samples, n) && b in Times(samples, n) ==> Count(samples, n, a) == Count(samples, n, b)
  }

  predicate NewestIsRecent(t: Thresholds, times: set<Time>, now: Time) {
    exists at :: at in times && now - at <= t.maxSampleGap
  }

  predicate OldestReachesBack(t: Thresholds, times: set<Time>, now: Time) {
    exists at :: at in times && at <= now - t.window + t.maxSampleGap
  }

  predicate IsNewest(times: set<Time>, at: Time) {
    forall u :: u in times ==> u <= at
  }

  predicate HasSuccessor(t: Thresholds, times: set<Time>, at: Time) {
    exists u :: u in times && at < u <= at + t.maxSampleGap
  }

  // Every observation but the newest has a successor within the gap.
  predicate NoHole(t: Thresholds, times: set<Time>) {
    forall at {:trigger HasSuccessor(t, times, at)} :: at in times ==> IsNewest(times, at) || HasSuccessor(t, times, at)
  }

  predicate NodeCovered(t: Thresholds, samples: seq<Sample>, n: string, now: Time) {
    var times := Times(samples, n);
    && times != {}
    && Uniform(samples, n)
    && t.minSamples <= |times|
    && NewestIsRecent(t, times, now)
    && OldestReachesBack(t, times, now)
    && NoHole(t, times)
  }

  // What the evidence must be for a verdict to be possible at all.
  predicate Covered(t: Thresholds, samples: seq<Sample>, j: Job, now: Time) {
    && (forall s :: s in samples ==> s.Judgeable())
    && j.nodes != []
    && (forall n :: n in j.nodes ==> NodeCovered(t, samples, n, now))
    && j.gpuCount <= |GPUs(samples)|
  }

  datatype Coverage = Coverage(observations: int, gpus: nat, fault: Fault)

  // The first check that node n fails, in the order in which they are made.
  function NodeFault(t: Thresholds, samples: seq<Sample>, n: string, now: Time): Fault {
    var times := Times(samples, n);
    if times == {} then NoSamples
    else if !Uniform(samples, n) then VaryingGPUs
    else if |times| < t.minSamples then TooFewObservations
    else if !NewestIsRecent(t, times, now) then Stale
    else if !OldestReachesBack(t, times, now) then NotYetCovered
    else if !NoHole(t, times) then Gap
    else Sound
  }

  function FewestObservations(observations: int, times: set<Time>): int {
    if observations == -1 || |times| < observations then |times| else observations
  }

  function CheckNodes(t: Thresholds, samples: seq<Sample>, nodes: seq<string>, now: Time, observations: int, gpus: nat): Coverage {
    if nodes == [] then Coverage(observations, gpus, Sound)
    else
      var fault := NodeFault(t, samples, nodes[0], now);
      var fewest := FewestObservations(observations, Times(samples, nodes[0]));
      if fault == NoSamples || fault == VaryingGPUs then Coverage(observations, gpus, fault)
      else if fault != Sound then Coverage(fewest, gpus, fault)
      else CheckNodes(t, samples, nodes[1..], now, fewest, gpus)
  }

  function CoverageOf(t: Thresholds, samples: seq<Sample>, j: Job, now: Time): Coverage {
    if exists s :: s in samples && !s.Judgeable() then Coverage(0, 0, NotJudgeable)
    else
      var gpus := |GPUs(samples)|;
      if j.nodes == [] then Coverage(0, gpus, NoNodes)
      else
        var c := CheckNodes(t, samples, j.nodes, now, -1, gpus);
        if c.fault == Sound && gpus < j.gpuCount then c.(fault := TooFewGPUs) else c
  }

  // ---- Summary of a window ----

  function SumUtil(samples: seq<Sample>): real {
    if samples == [] then 0.0 else SumUtil(samples[..|samples| - 1]) + samples[|samples| - 1].util
  }

  function SumMem(samples: seq<Sample>): real {
    if samples == [] then 0.0 else SumMem(samples[..|samples| - 1]) + samples[|samples| - 1].MemUsedFraction()
  }

  // Unread power adds nothing.
  function SumPower(samples: seq<Sample>): real {
    if samples == [] then 0.0
    else
      var last := samples[|samples| - 1];
      SumPower(samples[..|samples| - 1]) + if last.powerKnown then last.power else 0.0
  }

  function PeakUtil(samples: seq<Sample>): real {
    if samples == [] then 0.0
    else
      var last := samples[|samples| - 1];
      var rest := PeakUtil(samples[..|samples| - 1]);
      if rest < last.util then last.util else rest
  }

  // The largest process list, over the samples whose process list was read.
  function MaxPids(samples: seq<Sample>): nat {
    if samples == [] then 0
    else
      var last := samples[|samples| - 1];
      var rest := MaxPids(samples[..|samples| - 1]);
      if last.pidsKnown && rest < |last.pids| then |last.pids| else rest
  }

  function First(samples: seq<Sample>): Time
    requires samples != []
  {
    var last := samples[|samples| - 1];
    if |samples| == 1 then last.timestamp
    else
      var rest := First(samples[..|samples| - 1]);
      if last.timestamp < rest then last.timestamp else rest
  }

  lemma {:induction false} PeakUtilBounds(samples: seq<Sample>, limit: real)
    requires 0.0 < limit
    ensures 0.0 <= PeakUtil(samples)
    ensures PeakUtil(samples) < limit <==> forall s :: s in samples ==> s.util < limit
  {
    if samples != [] {
      var rest, last := samples[..|samples| - 1], samples[|samples| - 1];
      assert samples == rest + [last];
      assert forall s :: s in samples <==> s in rest || s == last;
      PeakUtilBounds(rest, limit);
    }
  }

  lemma {:induction false} MaxPidsBounds(samples: seq<Sample>)
    ensures MaxPids(samples) == 0 <==> forall s :: s in samples && s.pidsKnown ==> s.pids == []
  {
    if samples != [] {
      var rest, last := samples[..|samples| - 1], samples[|samples| - 1];
      assert samples == rest + [last];
      assert forall s :: s in samples <==> s in rest || s == last;
      MaxPidsBounds(rest);
    }
  }

  lemma {:induction false} FirstIsEarliest(samples: seq<Sample>) returns (earliest: Sample)
    requires samples != []
    ensures earliest in samples && earliest.timestamp == First(samples)
    ensures forall s :: s in samples ==> First(samples) <= s.timestamp
  {
    var rest, last := samples[..|samples| - 1], samples[|samples| - 1];
    assert samples == rest + [last];
    assert forall s :: s in samples <==> s in rest || s == last;
    earliest := last;
    if rest != [] {
      var earlier := FirstIsEarliest(rest);
      if earlier.timestamp <= last.timestamp {
        earliest := earlier;
      }
    }
  }

  datatype Stats = Stats(
    meanUtil: real,
    peakUtil: real,
    meanMem: real,
    meanPower: real,
    powerKnown: bool,
    pidsKnown: bool,
    maxPids: nat,
    first: Time)

  function Summary(samples: seq<Sample>): Stats {
    if samples == [] then Stats(0.0, 0.0, 0.0, 0.0, false, false, 0, UNSET)
    else
      var n := |samples| as real;
      var powerKnown := forall s :: s in samples ==> s.powerKnown;
      Stats(
        SumUtil(samples) / n,
        PeakUtil(samples),
        SumMem(samples) / n,
        if powerKnown then SumPower(samples) / n else 0.0,
        powerKnown,
        forall s :: s in samples ==> s.pidsKnown,
        MaxPids(samples),
        First(samples))
  }

  function Classify(s: Stats, t: Thresholds): Signature {
    var memHeld := t.memHeldFraction <= s.meanMem;
    if !memHeld && s.pidsKnown && s.maxPids == 0 && s.powerKnown && s.meanPower < t.idlePowerWatts then Idle
    else if memHeld && 0 < s.maxPids && s.peakUtil < 1.0 then Hung
    else if memHeld && 1.0 <= s.peakUtil then Starved
    else Unknown
  }

  // ---- The ladder ----

  // The verdict of the last stage reached.
  function StageFor(stages: seq<Stage>, dwell: Duration): Verdict {
    if stages == [] then Watching
    else
      var last := stages[|stages| - 1];
      if last.after <= dwell then last.verdict else StageFor(stages[..|stages| - 1], dwell)
  }

  function Capped(v: Verdict, sig: Signature, cancellable: set<Signature>): Verdict {
    var understood := if (sig == Unknown || sig == Starved) && Alert.Below(v) then Alert else v;
    if understood == Cancel && sig !in cancellable then Drain else understood
  }

  function Climb(t: Thresholds, r: JobRecord, wanted: Verdict, now: Time): Verdict {
    var alerted := if Alert.Below(wanted) && r.lastVerdict.Below(Alert) then Alert else wanted;
    if alerted == Cancel && (r.lastVerdict.Below(Drain) || r.drainConfirmedAt == UNSET || now - r.drainConfirmedAt < t.window)
    then Drain
    else alerted
  }

  const NANOS: real := 1_000_000_000.0

  function GPUSeconds(gpus: int, d: Duration): real {
    gpus as real * (d as real / NANOS)
  }

  function GPUHours(gpus: int, d: Duration): real {
    gpus as real * (d as real / NANOS / 3600.0)
  }

  function Max(a: int, b: int): int { if a < b then b else a }
  function Min(a: int, b: int): int { if a < b then a else b }

  // The waste of a breach: how much there is, and how much is new since it was
  // last accounted for.
  function Accounted(measured: Finding, since: Time, accountedUntil: Time, gpus: int, now: Time): Finding {
    var from := Max(since, accountedUntil);
    measured.(
      reason := Breach, breachedSince := since, wastedGPUHours := GPUHours(gpus, now - since),
      wastedGPUSeconds := if from < now then GPUSeconds(gpus, now - from) else measured.wastedGPUSeconds)
  }

  // A confirmed breach: what is recorded and reported.
  function Escalated(c: Rules, cancellable: set<Signature>, r: JobRecord, stats: Stats, covered: nat, measured: Finding,
                     j: Job, now: Time): (JobRecord, Finding)
  {
    var since := if r.breachedSince == UNSET then stats.first else r.breachedSince;
    var sig := Classify(stats, c.t);
    var verdict := Climb(c.t, r, Capped(StageFor(c.stages, now - since), sig, cancellable), now);
    ( r.(breachedSince := since, accountedUntil := now, lastVerdict := verdict),
      Accounted(measured, since, r.accountedUntil, Min(covered, j.gpuCount), now).(
        verdict := verdict, signature := sig, drainConfirmed := r.drainConfirmedAt != UNSET) )
  }

  // The judgement of a job whose record holds samples.
  function Judge(c: Rules, cancellable: set<Signature>, r: JobRecord, j: Job, now: Time): (JobRecord, Finding)
    requires r.samples != []
  {
    var cov := CoverageOf(c.t, r.samples, j, now);
    var blank := NotJudged(j, Hole(cov.fault)).(observations := cov.observations, gpus := cov.gpus);
    if cov.fault != Sound then (r.Reset(), blank)
    else
      var stats := Summary(r.samples);
      var measured := blank.(
        reason := Busy,
        meanUtil := stats.meanUtil, peakUtil := stats.peakUtil, memHeld := stats.meanMem,
        meanPower := stats.meanPower, powerKnown := stats.powerKnown);
      if c.t.utilPct <= stats.peakUtil then
        (r.Reset(), measured.(recoveredAfterDrain := r.drainConfirmedAt != UNSET))
      else
        Escalated(c, cancellable, r, stats, cov.gpus, measured, j, now)
  }

  // ---- The operations on an engine's memory ----

  const INITIAL := Memory(map[], {Idle})

  ghost predicate Holds(m: Memory, id: string, startTime: Time) {
    id in m.jobs && m.jobs[id].startTime == startTime
  }

  function RecordFor(m: Memory, j: Job): JobRecord {
    if j.id in m.jobs && m.jobs[j.id].startTime == j.startTime then m.jobs[j.id] else FreshRecord(j.startTime)
  }

  function ObserveRecord(t: Thresholds, r: JobRecord, j: Job, samples: seq<Sample>, now: Time): JobRecord {
    r.(samples := Since(r.samples + Admitted(t, j.startTime, samples), now - t.window))
  }

  function Observe(c: Rules, m: Memory, j: Job, samples: seq<Sample>, now: Time): Memory {
    m.(jobs := m.jobs[j.id := ObserveRecord(c.t, RecordFor(m, j), j, samples, now)])
  }

  function Drop(m: Memory, id: string): Memory {
    m.(jobs := m.jobs - {id})
  }

  function Forget(m: Memory, active: set<string>): Memory {
    m.(jobs := map id | id in m.jobs && id in active :: m.jobs[id])
  }

  function ConfirmDrain(m: Memory, j: Job, at: Time): Memory {
    if j.id in m.jobs && m.jobs[j.id].startTime == j.startTime && m.jobs[j.id].lastVerdict == Drain
       && m.jobs[j.id].drainConfirmedAt == UNSET
    then m.(jobs := m.jobs[j.id := m.jobs[j.id].(drainConfirmedAt := at)])
    else m
  }

  predicate MayBeCancelled(sigs: seq<Signature>) {
    forall s :: s in sigs ==> s == Idle || s == Hung
  }

  function AllowCancel(m: Memory, sigs: seq<Signature>): Memory {
    if MayBeCancelled(sigs) then m.(cancellable := set s | s in sigs) else m
  }

  function Evaluate(c: Rules, m: Memory, j: Job, now: Time): (Memory, Finding) {
    if j.gpuCount == 0 then (m, NotJudged(j, NoGPUs))
    else if c.exempt(j) then (m, NotJudged(j, Exempt))
    else if j.startTime == UNSET then (Drop(m, j.id), NotJudged(j, StartUnknown))
    else if j.Age(now) < c.t.warmup then (m, NotJudged(j, WithinWarmup))
    else if RecordFor(m, j).samples == [] then (m, NotJudged(j, NoEvidence))
    else
      var (r, f) := Judge(c, m.cancellable, RecordFor(m, j), j, now);
      (m.(jobs := m.jobs[j.id := r]), f)
  }
}
