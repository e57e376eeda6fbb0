// One history in which a job is cancelled after less than a window at Drain:
// between the drain and the cancellation it looks starved rather than idle for a
// while, and is only alerted about. The drain stays confirmed.
module Lapse {
  import opened Wrappers
  import opened Telemetry
  import opened Policy
  import opened Daemon
  import opened Safety
  import opened Progress
  import opened Escalation
  import opened Signatures
  import Config
  import Stages
  import Startup
  import Text

  // A cycle every two minutes, a gap of three, a window of four, and one stage.
  const STEP := 2 * Config.MINUTE

  const T := Thresholds(15.0, 0.05, 60.0, 2 * STEP, 0, 1, 3 * Config.MINUTE)

  const SETTINGS := Config.Settings(true, STEP, T, [Config.ConfigStage(2 * STEP, "cancel")], ["idle"])

  // The first instant of 2024, in nanoseconds since the zero instant.
  const START := 63_839_664_000_000_000_000

  const FROM := START + 3 * STEP

  const JOB := Job("1", "name", "user", "account", "partition", "qos", "RUNNING", START, ["node"], 1)

  // Nothing at all runs, except that in cycle 4 something holds all memory and
  // computes a little.
  function Seen(i: nat): Sample {
    if i == 4 then Sample(FROM + i * STEP, "node", 0, 5.0, 100, 100, 50.0, [1], true, true, true, true, false, [])
    else Sample(FROM + i * STEP, "node", 0, 0.0, 0, 100, 50.0, [], true, true, true, true, false, [])
  }

  const STREAM := Stream((i: nat) => [Seen(i)], FROM, STEP)

  const NOBODY: Job -> bool := (j: Job) => false
  const ALWAYS: nat -> bool := (n: nat) => true

  function Arrangement(): Setup
    requires Config.Effective(SETTINGS).Some?
  {
    Startup.Arranged(SETTINGS, NOBODY, ALWAYS, false, "")
  }

  const STAGE := Stage(2 * STEP, Cancel)

  lemma StagesAre()
    ensures Config.Effective(SETTINGS) == Some([STAGE]) && Stages.Sorted([STAGE]) == [STAGE]
    ensures Config.ParseVerdict("cancel") == Some(Cancel)
  {
    Text.TrimIsTrimmed("cancel");
    assert Text.ToLower("cancel") == "cancel";
    var written := Config.ConfigStage(2 * STEP, "cancel");
    assert [] + [written] == [written] && [] + [STAGE] == [STAGE];
    Config.ParsedPush([], written, [], Cancel);
    assert [STAGE][..0] == [] && Stages.Sorted([STAGE][..0]) == [];
  }

  lemma SettingsAreAccepted()
    ensures Config.Acceptable(SETTINGS)
    ensures Config.RulesOf(SETTINGS, NOBODY).stages == [STAGE]
  {
    StagesAre();
    Config.WrappedIsExact(STEP);
  }

  lemma Wanted(k: nat)
    ensures StageFor([STAGE], k * STEP) == if 2 <= k then Cancel else Watching
  {
    assert [STAGE][..0] == [];
  }

  // ---- The stream ----

  lemma SeenAt(i: nat)
    ensures SteadyAt(T, STREAM, JOB, i)
  {
    var x, y := Seen(i), Seen(0);
    assert [x][..0] == [] && [y][..0] == [];
    assert GPUs([x]) == {("node", 0)} == GPUs([y]);
  }

  lemma StreamIsSteady()
    ensures Steady(T, STREAM, JOB)
  {
    forall i: nat ensures SteadyAt(T, STREAM, JOB, i) {
      SeenAt(i);
    }
    assert GPUs(STREAM.snapshot(0)) == {("node", 0)};
  }

  lemma {:induction false} BetweenSize(lo: nat, k: int)
    requires lo <= k + 1
    ensures |Between(STREAM, lo, k)| == k + 1 - lo
  {
    if lo <= k {
      BetweenSize(lo, k - 1);
    }
  }

  lemma {:induction false} MemAtLeast(samples: seq<Sample>, x: Sample)
    requires x in samples
    ensures x.MemUsedFraction() <= SumMem(samples)
  {
    var rest, last := samples[..|samples| - 1], samples[|samples| - 1];
    assert samples == rest + [last];
    if x in rest {
      MemAtLeast(rest, x);
    } else {
      MemNotNegative(rest);
    }
  }

  lemma {:induction false} MemNotNegative(samples: seq<Sample>)
    ensures 0.0 <= SumMem(samples)
  {
    if samples != [] {
      MemNotNegative(samples[..|samples| - 1]);
    }
  }

  lemma ThirdIsHeld(sum: real, n: nat)
    requires 1.0 <= sum && 1 <= n <= 3
    ensures 0.05 <= sum / n as real
  {
  }

  lemma LooksStarved(samples: seq<Sample>)
    requires Seen(4) in samples && |samples| <= 3
    ensures Classify(Summary(samples), T) == Starved
  {
    MemAtLeast(samples, Seen(4));
    ThirdIsHeld(SumMem(samples), |samples|);
    PeakUtilBounds(samples, 1.0);
  }

  // What each cycle sees in its window.
  lemma Signed(k: nat)
    ensures SignatureAt(T, STREAM, k) == if 4 <= k <= 6 then Starved else Idle
  {
    var lo := OldestKept(T, STEP, k);
    var window := Kept(T, STREAM, k);
    BetweenSize(lo, k);
    if 4 <= k <= 6 {
      assert Seen(4) in STREAM.snapshot(4);
      BetweenMembers(STREAM, lo, k, Seen(4));
      LooksStarved(window);
    } else {
      forall x | x in window ensures IdleSample(T, x) {
        BetweenMembers(STREAM, lo, k, x);
      }
      IdleWindow(T, window);
    }
  }

  // ---- The climb ----

  function Verdicts(i: nat): Verdict {
    if i == 0 then Healthy
    else if i == 1 then Watching
    else if i == 3 || i == 7 then Drain
    else if i < 7 then Alert
    else Cancel
  }

  // What a cycle that confirms the breach does to the rung before it.
  function Step(before: Rung, k: nat): Verdict {
    if k < 2 then Watching
    else if 4 <= k <= 6 || before.last.Below(Alert) then Alert
    else if before.last.Below(Drain) || before.drained == UNSET || FROM + k * STEP - before.drained < 2 * STEP then Drain
    else Cancel
  }

  lemma ClimbIs(c: Rules, before: Rung, k: nat)
    requires c.t == T && c.stages == [STAGE]
    ensures ClimbAt(c, {Idle}, STREAM, before, k) == Step(before, k)
  {
    Wanted(k);
    Signed(k);
    var wanted, sig := StageFor([STAGE], k * STEP), SignatureAt(T, STREAM, k);
    assert Capped(wanted, sig, {Idle}) == if k < 2 then Watching else if 4 <= k <= 6 then Alert else Cancel;
  }

  function Expected(i: nat): Rung {
    if i == 0 then BOTTOM else Rung(Verdicts(i - 1), if i < 4 then UNSET else FROM + 3 * STEP)
  }

  lemma StepIs(i: nat)
    requires 1 <= i < 9
    ensures Step(Expected(i), i) == Verdicts(i)
  {
  }

  // The rung after each of the nine cycles.
  lemma {:induction false} RungIs(c: Rules, i: nat)
    requires c.t == T && c.stages == [STAGE] && i <= 9
    ensures RungAfter(c, {Idle}, STREAM, i) == Expected(i)
  {
    FirstConfirmedIs();
    if i > 1 {
      RungIs(c, i - 1);
      ClimbIs(c, Expected(i - 1), i - 1);
      StepIs(i - 1);
    }
  }

  lemma FirstConfirmedIs()
    ensures FitsWindow(T, STEP) && FirstConfirmed(T, STEP) == 1
  {
  }

  lemma JobIsAttributed(s: Setup)
    requires !s.perNode
    ensures Attributable(s, STREAM, JOB)
  {
    forall i: nat ensures FateOf([JOB], STREAM.snapshot(i), JOB) == Judged && OnNodes(STREAM.snapshot(i), JOB.nodes) == STREAM.snapshot(i) {
      AttributedAt(i);
    }
  }

  lemma AttributedAt(i: nat)
    ensures FateOf([JOB], [Seen(i)], JOB) == Judged && OnNodes([Seen(i)], JOB.nodes) == [Seen(i)]
  {
    var samples := [Seen(i)];
    assert samples[..0] == [] && JOB.nodes[..0] == [] && [JOB][..0] == [];
    assert OnNode(samples, "node") == samples;
    assert OnNodes(samples, JOB.nodes) == OnNode(samples, "node");
    assert Occurrences(JOB.nodes, "node") == 1 && Load([JOB], "node") == 1;
    assert Seen(i) in samples && Sampled(samples, "node");
    assert JOB.nodes[0] in JOB.nodes;
  }

  ghost predicate Reports(s: Setup, h: History, i: nat, v: Verdict)
    requires |h.ws| == |h.turns| + 1 && i < |h.turns|
  {
    exists k: nat :: EvaluatedAt(s, h, i, JOB, k) && h.ws[i + 1].run.fs[k].verdict == v
  }

  ghost predicate Lapsing(s: Setup, h: History) {
    && s.rules.t == T && s.rules.stages == [STAGE]
    && s.wiring.live && s.wiring.enforce && Apt(s, STREAM, JOB) && Fed(s, h, STREAM, JOB, 0, 9) && |h.turns| == 9
    && (forall i {:trigger FedBy(s, h, STREAM, JOB, 0, i)} :: 0 <= i < 9 ==> FedBy(s, h, STREAM, JOB, 0, i))
    && AllowedIn(h) == {Idle}
  }

  // The rungs on both sides of a cycle.
  lemma RungsAround(c: Rules, i: nat)
    requires c.t == T && c.stages == [STAGE] && i < 9
    ensures RungAfter(c, {Idle}, STREAM, i + 1).last == Verdicts(i)
    ensures i == 3 ==> ConfirmedAt(c.t, STEP, i) && RungAfter(c, {Idle}, STREAM, i).drained == UNSET
  {
    FirstConfirmedIs();
    RungIs(c, i);
    RungIs(c, i + 1);
  }

  lemma TurnReports(s: Setup, h: History, i: nat) returns (k: nat)
    requires Lapsing(s, h) && i < 9
    ensures EvaluatedAt(s, h, i, JOB, k) && h.ws[i + 1].run.fs[k].verdict == Verdicts(i)
    ensures i == 3 ==> !h.ws[i + 1].run.fs[k].drainConfirmed
  {
    StandsAfter(s, h, STREAM, JOB, 0, 9, i);
    assert FedBy(s, h, STREAM, JOB, 0, i);
    k := TurnClimbs(s, h, STREAM, JOB, i, i);
    RungsAround(s.rules, i);
  }

  lemma LapsingExists() returns (h: History)
    requires Config.Effective(SETTINGS).Some?
    ensures Lapsing(Arrangement(), h)
  {
    var s := Arrangement();
    SettingsAreAccepted();
    StreamIsSteady();
    JobIsAttributed(s);
    NewbornKeepsNothing(s, [Idle], JOB);
    h := FedHistoryExists(s, Newborn(s, [Idle]), STREAM, JOB, 9);
    assert AllowedIn(h) == {Idle};
  }

  lemma TurnIs(s: Setup, h: History, i: nat)
    requires Lapsing(s, h) && i < 9
    ensures h.turns[i].now == FROM + i * STEP && h.turns[i].listing.Listed? && Distinct(h.turns[i].listing.jobs)
  {
    assert FedBy(s, h, STREAM, JOB, 0, i);
  }

  lemma DrainsAndCancels(s: Setup, h: History)
    requires Lapsing(s, h)
    ensures DrainedDuring(h, 3, JOB) && CancelCalled(h, 8, JOB.id)
  {
    TurnIs(s, h, 3);
    var drain := TurnReports(s, h, 3);
    DrainIsCalled(s, h, 3, JOB, drain);
    var cancel := TurnReports(s, h, 8);
    CancelIsCalled(s, h, 8, JOB, cancel);
  }

  // Turn 3 drains the job and turn 8 cancels it; turns 4 to 6 report no more than
  // an alert, and turn 7, not a window before the cancellation, Drain again.
  lemma DrainLapses() returns (h: History)
    ensures Config.Acceptable(SETTINGS) && IsHistory(Arrangement(), h) && |h.turns| == 9
    ensures forall i {:trigger Verdicts(i)} :: 0 <= i < 9 ==> Reports(Arrangement(), h, i, Verdicts(i))
    ensures h.turns[8].now - h.turns[7].now < SETTINGS.thresholds.window
    ensures DrainedDuring(h, 3, JOB) && CancelCalled(h, 8, JOB.id)
  {
    SettingsAreAccepted();
    h := LapsingExists();
    forall i | 0 <= i < 9 ensures Reports(Arrangement(), h, i, Verdicts(i)) {
      var k := TurnReports(Arrangement(), h, i);
    }
    DrainsAndCancels(Arrangement(), h);
    TurnIs(Arrangement(), h, 7);
    TurnIs(Arrangement(), h, 8);
  }
}
