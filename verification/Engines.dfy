// The policy engine as it runs: objects that change in place. Every method is
// proved to change the engine's memory exactly as the function of the same
// name in Policy.dfy says, and logs the operation, so that whatever holds of
// every run of those functions holds of every use of an engine.
module Engines {
  import opened Telemetry
  import opened Policy
  import opened Evidence
  import opened Runs
  import Stages

  // Keeps the samples at or after the cutoff, in place: the kept samples are
  // written over the front of the buffer that is being read.
  method Compact(samples: seq<Sample>, cutoff: Time) returns (kept: seq<Sample>)
    ensures kept == Since(samples, cutoff)
  {
    var buffer := samples;
    var k := 0;
    for i := 0 to |samples|
      invariant 0 <= k <= i && |buffer| == |samples|
      invariant buffer[..k] == Since(samples[..i], cutoff)
      invariant buffer[i..] == samples[i..]
    {
      var s := buffer[i];
      assert s == buffer[i..][0] == samples[i];
      assert buffer[i + 1..] == buffer[i..][1..] == samples[i..][1..] == samples[i + 1..];
      assert samples[..i + 1][..i] == samples[..i];
      SinceLast(samples[..i + 1], cutoff);
      if cutoff <= s.timestamp {
        assert buffer[k := s][i + 1..] == buffer[i + 1..];
        buffer := buffer[k := s];
        k := k + 1;
      }
    }
    assert samples[..|samples|] == samples;
    kept := buffer[..k];
  }

  // Appends the samples that may ever count for the job.
  method Admit(t: Thresholds, j: Job, recorded: seq<Sample>, samples: seq<Sample>) returns (grown: seq<Sample>)
    ensures grown == recorded + Admitted(t, j.startTime, samples)
  {
    var judgedFrom := j.startTime + t.warmup;
    grown := recorded;
    for i := 0 to |samples|
      invariant grown == recorded + Admitted(t, j.startTime, samples[..i])
    {
      assert samples[..i + 1][..i] == samples[..i];
      SinceLast(samples[..i + 1], judgedFrom);
      if j.startTime == UNSET || samples[i].timestamp < judgedFrom {
        continue;
      }
      grown := grown + [samples[i]];
    }
    assert samples[..|samples|] == samples;
  }

  method WalkStages(stages: seq<Stage>, dwell: Duration) returns (v: Verdict)
    ensures v == StageFor(stages, dwell)
  {
    v := Watching;
    for i := 0 to |stages|
      invariant v == StageFor(stages[..i], dwell)
    {
      assert stages[..i + 1][..i] == stages[..i];
      if stages[i].after <= dwell {
        v := stages[i].verdict;
      }
    }
    assert stages[..|stages|] == stages;
  }

  class JobState {
    var startTime: Time
    var samples: seq<Sample>
    var breachedSince: Time
    var lastVerdict: Verdict
    var drainConfirmedAt: Time
    var accountedUntil: Time

    constructor (startTime: Time)
      ensures Record() == FreshRecord(startTime)
    {
      this.startTime := startTime;
      samples := [];
      breachedSince := UNSET;
      lastVerdict := Healthy;
      drainConfirmedAt := UNSET;
      accountedUntil := UNSET;
    }

    ghost function Record(): JobRecord
      reads this
    {
      JobRecord(startTime, samples, breachedSince, lastVerdict, drainConfirmedAt, accountedUntil)
    }

    method Reset()
      modifies this
      ensures Record() == old(Record()).Reset()
    {
      breachedSince := UNSET;
      lastVerdict := Healthy;
      drainConfirmedAt := UNSET;
      accountedUntil := UNSET;
    }

    method Observe(t: Thresholds, j: Job, delivered: seq<Sample>, now: Time)
      modifies this`samples
      ensures Record() == ObserveRecord(t, old(Record()), j, delivered, now)
    {
      var grown := Admit(t, j, samples, delivered);
      samples := Compact(grown, now - t.window);
    }

    method Judge(c: Rules, cancellable: set<Signature>, j: Job, now: Time) returns (f: Finding)
      requires samples != []
      modifies this
      ensures (Record(), f) == Policy.Judge(c, cancellable, old(Record()), j, now)
    {
      var cov := CheckCoverage(c.t, samples, j, now);
      f := NotJudged(j, Hole(cov.fault)).(observations := cov.observations, gpus := cov.gpus);
      if cov.fault != Sound {
        Reset();
        return;
      }
      var stats := Summarize(samples);
      f := f.(reason := Busy, meanUtil := stats.meanUtil, peakUtil := stats.peakUtil, memHeld := stats.meanMem,
              meanPower := stats.meanPower, powerKnown := stats.powerKnown);
      if c.t.utilPct <= stats.peakUtil {
        f := f.(recoveredAfterDrain := drainConfirmedAt != UNSET);
        Reset();
        return;
      }
      f := Escalate(c, cancellable, stats, cov.gpus, f, j, now);
    }

    // A sustained breach is confirmed: account for the waste and climb.
    method Escalate(c: Rules, cancellable: set<Signature>, stats: Stats, covered: nat, measured: Finding, j: Job, now: Time)
      returns (f: Finding)
      modifies this`breachedSince, this`accountedUntil, this`lastVerdict
      ensures (Record(), f) == Escalated(c, cancellable, old(Record()), stats, covered, measured, j, now)
    {
      if breachedSince == UNSET {
        breachedSince := stats.first;
      }
      var gpus := covered;
      if j.gpuCount < gpus {
        gpus := j.gpuCount;
      }
      assert gpus == Min(covered, j.gpuCount);
      f := Accrue(gpus, measured, now);
      var sig := Classify(stats, c.t);
      var target := ChooseVerdict(c, cancellable, sig, now);
      lastVerdict := target;
      f := f.(verdict := target, signature := sig, drainConfirmed := drainConfirmedAt != UNSET);
    }

    method Accrue(gpus: int, measured: Finding, now: Time) returns (f: Finding)
      modifies this`accountedUntil
      ensures accountedUntil == now
      ensures f == Accounted(measured, breachedSince, old(accountedUntil), gpus, now)
    {
      var dwell := now - breachedSince;
      f := measured.(reason := Breach, breachedSince := breachedSince, wastedGPUHours := GPUHours(gpus, dwell));
      var from := breachedSince;
      if from < accountedUntil {
        from := accountedUntil;
      }
      if from < now {
        f := f.(wastedGPUSeconds := GPUSeconds(gpus, now - from));
      }
      accountedUntil := now;
    }

    method ChooseVerdict(c: Rules, cancellable: set<Signature>, sig: Signature, now: Time) returns (target: Verdict)
      ensures target == Climb(c.t, Record(), Capped(StageFor(c.stages, now - breachedSince), sig, cancellable), now)
    {
      target := WalkStages(c.stages, now - breachedSince);
      if (sig == Unknown || sig == Starved) && Alert.Below(target) {
        target := Alert;
      }
      if target == Cancel && sig !in cancellable {
        target := Drain;
      }
      if Alert.Below(target) && lastVerdict.Below(Alert) {
        target := Alert;
      }
      if target == Cancel {
        var drained := drainConfirmedAt != UNSET;
        if lastVerdict.Below(Drain) || !drained || now - drainConfirmedAt < c.t.window {
          target := Drain;
        }
      }
    }
  }

  lemma Overwritten(jobs: map<string, JobRecord>, id: string, r: JobRecord, r': JobRecord)
    ensures jobs[id := r][id := r'] == jobs[id := r']
  {
  }

  datatype Built = Built(engine: Engine) | Refused

  class Engine {
    const rules: Rules
    var cancellable: set<Signature>
    var states: map<string, JobState>
    ghost var run: Run

    // No two jobs share a state object.
    ghost predicate Separate()
      reads this`states
    {
      forall a, b :: a in states && b in states && a != b ==> states[a] != states[b]
    }

    ghost predicate Valid()
      reads this, states.Values
    {
      Separate() && IsRun(rules, run) && View() == Last(run)
    }

    ghost function View(): Memory
      reads this`states, this`cancellable, states.Values
    {
      Memory(map id | id in states :: states[id].Record(), cancellable)
    }

    // Changing one state object changes one record.
    twostate lemma OneChanged(id: string)
      requires Separate() && id in states && states == old(states) && cancellable == old(cancellable)
      requires forall other :: other in states && other != id ==> states[other].Record() == old(states[other].Record())
      ensures View() == old(View()).(jobs := old(View()).jobs[id := states[id].Record()])
    {
      assert View().jobs == old(View()).jobs[id := states[id].Record()];
    }

    constructor (rules: Rules)
      ensures Valid() && run == NOTHING && this.rules == rules && states == map[]
    {
      this.rules := rules;
      cancellable := {Idle};
      states := map[];
      run := NOTHING;
    }

    static method New(t: Thresholds, stages: seq<Stage>, exempt: Job -> bool) returns (built: Built)
      ensures built.Built? <==>
        0 < t.window && 1 <= t.minSamples && 0 < t.maxSampleGap && t.maxSampleGap < t.window && 0.0 < t.utilPct && t.utilPct <= 100.0
      ensures built.Built? ==>
        && fresh(built.engine) && built.engine.Valid() && built.engine.run == NOTHING && built.engine.states == map[]
        && built.engine.rules == Rules(t, Stages.Sorted(stages), exempt)
    {
      if t.window <= 0 || t.minSamples < 1 || t.maxSampleGap <= 0 || t.window <= t.maxSampleGap
         || t.utilPct <= 0.0 || 100.0 < t.utilPct {
        return Refused;
      }
      var sorted := Stages.Sort(stages);
      var engine := new Engine(Rules(t, sorted, exempt));
      return Built(engine);
    }

    method AllowCancel(sigs: seq<Signature>) returns (ok: bool)
      requires Valid()
      modifies this`cancellable, this`run
      ensures Valid() && run == Did(rules, old(run), Allowing(sigs))
      ensures ok == MayBeCancelled(sigs)
      ensures View() == Policy.AllowCancel(old(View()), sigs)
    {
      var m: set<Signature> := {};
      ok := true;
      for i := 0 to |sigs|
        invariant cancellable == old(cancellable)
        invariant m == (set s | s in sigs[..i])
        invariant ok
        invariant forall s :: s in sigs[..i] ==> s == Idle || s == Hung
      {
        assert sigs[..i + 1] == sigs[..i] + [sigs[i]];
        if sigs[i] != Idle && sigs[i] != Hung {
          ok := false;
          assert sigs[i] in sigs;
          break;
        }
        m := m + {sigs[i]};
      }
      if ok {
        assert sigs[..|sigs|] == sigs;
        cancellable := m;
      }
      DidIsRun(rules, run, Allowing(sigs));
      run := Did(rules, run, Allowing(sigs));
    }

    // The state of exactly this incarnation of a job, created when missing.
    method State(j: Job) returns (st: JobState)
      requires Separate()
      modifies this`states
      ensures Separate()
      ensures j.id in states && states[j.id] == st && states == old(states)[j.id := st]
      ensures old(j.id in states && states[j.id].startTime == j.startTime) ==> st == old(states)[j.id]
      ensures !old(j.id in states && states[j.id].startTime == j.startTime) ==> fresh(st)
      ensures st.Record() == RecordFor(old(View()), j)
    {
      if j.id in states && states[j.id].startTime == j.startTime {
        st := states[j.id];
        assert states == states[j.id := st];
      } else {
        st := new JobState(j.startTime);
        states := states[j.id := st];
      }
    }

    method ObserveState(j: Job, samples: seq<Sample>, now: Time)
      requires Separate()
      modifies this`states, states.Values
      ensures Separate() && fresh(states.Values - old(states.Values))
      ensures View() == Policy.Observe(rules, old(View()), j, samples, now)
    {
      ghost var was := View();
      var st := State(j);
      label found:
      assert View().jobs == was.jobs[j.id := RecordFor(was, j)];
      st.Observe(rules.t, j, samples, now);
      OneChanged@found(j.id);
      Overwritten(was.jobs, j.id, RecordFor(was, j), ObserveRecord(rules.t, RecordFor(was, j), j, samples, now));
    }

    method Observe(j: Job, samples: seq<Sample>, now: Time)
      requires Valid()
      modifies this`states, this`run, states.Values
      ensures Valid() && run == Did(rules, old(run), Observing(j, samples, now))
      ensures fresh(states.Values - old(states.Values))
      ensures View() == Policy.Observe(rules, old(View()), j, samples, now)
    {
      ObserveState(j, samples, now);
      DidIsRun(rules, run, Observing(j, samples, now));
      run := Did(rules, run, Observing(j, samples, now));
    }

    method Drop(id: string)
      requires Valid()
      modifies this`states, this`run
      ensures Valid() && run == Did(rules, old(run), Dropping(id))
      ensures states == old(states) - {id}
      ensures View() == Policy.Drop(old(View()), id)
    {
      states := states - {id};
      DidIsRun(rules, run, Dropping(id));
      run := Did(rules, run, Dropping(id));
    }

    method ForgetStates(active: set<string>)
      requires Separate()
      modifies this`states
      ensures Separate() && states.Values <= old(states).Values
      ensures View() == Policy.Forget(old(View()), active)
    {
      var rest := states.Keys;
      while rest != {}
        invariant rest <= old(states).Keys
        invariant forall id :: id in states <==> id in old(states) && (id in rest || id in active)
        invariant forall id :: id in states ==> states[id] == old(states)[id]
      {
        var id :| id in rest;
        if id !in active {
          states := states - {id};
        }
        rest := rest - {id};
      }
    }

    method Forget(active: set<string>)
      requires Valid()
      modifies this`states, this`run
      ensures Valid() && run == Did(rules, old(run), Forgetting(active))
      ensures states.Values <= old(states).Values
      ensures View() == Policy.Forget(old(View()), active)
    {
      ForgetStates(active);
      DidIsRun(rules, run, Forgetting(active));
      run := Did(rules, run, Forgetting(active));
    }

    method ConfirmState(j: Job, at: Time)
      requires Separate()
      modifies states.Values
      ensures View() == Policy.ConfirmDrain(old(View()), j, at)
    {
      if j.id !in states || states[j.id].startTime != j.startTime || states[j.id].lastVerdict != Drain {
        return;
      }
      var st := states[j.id];
      if st.drainConfirmedAt == UNSET {
        st.drainConfirmedAt := at;
        OneChanged(j.id);
      }
    }

    method ConfirmDrain(j: Job, at: Time)
      requires Valid()
      modifies this`run, states.Values
      ensures Valid() && run == Did(rules, old(run), Confirming(j, at))
      ensures View() == Policy.ConfirmDrain(old(View()), j, at)
    {
      ConfirmState(j, at);
      DidIsRun(rules, run, Confirming(j, at));
      run := Did(rules, run, Confirming(j, at));
    }

    method EvaluateState(j: Job, now: Time) returns (f: Finding)
      requires Separate()
      modifies this`states, states.Values
      ensures Separate() && states.Values <= old(states).Values
      ensures (View(), f) == Policy.Evaluate(rules, old(View()), j, now)
    {
      if j.gpuCount == 0 {
        return NotJudged(j, NoGPUs);
      }
      if rules.exempt(j) {
        return NotJudged(j, Exempt);
      }
      if j.startTime == UNSET {
        states := states - {j.id};
        assert View().jobs == old(View()).jobs - {j.id};
        return NotJudged(j, StartUnknown);
      }
      if j.Age(now) < rules.t.warmup {
        return NotJudged(j, WithinWarmup);
      }
      if j.id !in states || states[j.id].startTime != j.startTime || states[j.id].samples == [] {
        return NotJudged(j, NoEvidence);
      }
      f := states[j.id].Judge(rules, cancellable, j, now);
      OneChanged(j.id);
    }

    method Evaluate(j: Job, now: Time) returns (f: Finding)
      requires Valid()
      modifies this`states, this`run, states.Values
      ensures Valid() && run == Did(rules, old(run), Evaluating(j, now))
      ensures states.Values <= old(states).Values
      ensures (View(), f) == Policy.Evaluate(rules, old(View()), j, now)
    {
      f := EvaluateState(j, now);
      DidIsRun(rules, run, Evaluating(j, now));
      run := Did(rules, run, Evaluating(j, now));
    }
  }
}
