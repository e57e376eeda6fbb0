// What one missed cycle does to a breach that is confirmed: it goes on if what is
// left is still contiguous, and starts again from nothing if not.
module Tolerance {
  import opened Telemetry
  import opened Policy
  import opened Runs
  import opened Ladder
  import opened Window
  import opened Contiguity
  import opened Evidence
  import opened Daemon
  import opened Safety
  import opened Progress
  import Config

  // The window when cycle k was missed and cycle k + 1 is delivered.
  function Holed(s: Stream, lo: nat, k: nat): seq<Sample> {
    Between(s, lo, k - 1) + s.snapshot(k + 1)
  }

  ghost function HoledStamps(s: Stream, lo: nat, k: nat): set<Time> {
    Stamps(s, lo, k - 1) + {s.Stamp(k + 1)}
  }

  lemma TimesAppend(a: seq<Sample>, b: seq<Sample>, n: string)
    ensures Times(a + b, n) == Times(a, n) + Times(b, n)
  {
    assert forall x :: x in a + b <==> x in a || x in b;
  }

  lemma TimesOfSnapshot(t: Thresholds, s: Stream, j: Job, k: nat, n: string)
    requires Steady(t, s, j) && n in j.nodes
    ensures Times(s.snapshot(k), n) == {s.Stamp(k)}
  {
    assert Between(s, k, k - 1) + s.snapshot(k) == s.snapshot(k);
    TimesOfWindow(t, s, j, k, k, n);
    assert Stamps(s, k, k) == {s.Stamp(k)};
  }

  lemma HoledStampsSize(s: Stream, lo: nat, k: nat)
    requires 0 < s.interval && lo < k
    ensures |HoledStamps(s, lo, k)| == k - lo + 1
  {
    StampsSize(s, lo, k - 1);
    forall i: nat | lo <= i <= k - 1 ensures s.Stamp(i) != s.Stamp(k + 1) {
      StampOrder(s, i, k + 1);
    }
  }

  lemma TimesOfHoled(t: Thresholds, s: Stream, j: Job, lo: nat, k: nat, n: string)
    requires Steady(t, s, j) && n in j.nodes && lo < k
    ensures Times(Holed(s, lo, k), n) == HoledStamps(s, lo, k)
  {
    TimesAppend(Between(s, lo, k - 1), s.snapshot(k + 1), n);
    TimesOfWindow(t, s, j, lo, k - 1, n);
    TimesOfSnapshot(t, s, j, k + 1, n);
  }

  // Every cycle that was not missed counts as often as the first.
  lemma CountsOfHoled(t: Thresholds, s: Stream, j: Job, lo: nat, k: nat, n: string, i: nat)
    requires Steady(t, s, j) && n in j.nodes && lo < k && (lo <= i < k || i == k + 1)
    ensures Count(Holed(s, lo, k), n, s.Stamp(i)) == Count(s.snapshot(0), n, s.Stamp(0))
  {
    CountSplit(Between(s, lo, k - 1), s.snapshot(k + 1), n, s.Stamp(i));
    if i == k + 1 {
      assert SteadyAt(t, s, j, i);
      BeforeTheHole(t, s, j, lo, k, n);
    } else {
      NoneLater(t, s, j, k + 1, n, i);
      CountsOfWindow(t, s, j, lo, k - 1, n, i);
    }
  }

  lemma BeforeTheHole(t: Thresholds, s: Stream, j: Job, lo: nat, k: nat, n: string)
    requires Steady(t, s, j)
    ensures Count(Between(s, lo, k - 1), n, s.Stamp(k + 1)) == 0
  {
    forall x | x in Between(s, lo, k - 1) ensures x.timestamp != s.Stamp(k + 1) {
      BetweenMembers(s, lo, k - 1, x);
      var m: nat :| lo <= m <= k - 1 && x in s.snapshot(m);
      assert SteadyAt(t, s, j, m);
      StampOrder(s, m, k + 1);
    }
    CountOutside(Between(s, lo, k - 1), n, s.Stamp(k + 1));
  }

  lemma UniformHoled(t: Thresholds, s: Stream, j: Job, lo: nat, k: nat, n: string)
    requires Steady(t, s, j) && n in j.nodes && lo < k
    ensures Uniform(Holed(s, lo, k), n)
  {
    TimesOfHoled(t, s, j, lo, k, n);
    forall at | at in HoledStamps(s, lo, k) ensures Count(Holed(s, lo, k), n, at) == Count(s.snapshot(0), n, s.Stamp(0)) {
      if at in Stamps(s, lo, k - 1) {
        var i: nat :| lo <= i <= k - 1 && at == s.Stamp(i);
        CountsOfHoled(t, s, j, lo, k, n, i);
      } else {
        CountsOfHoled(t, s, j, lo, k, n, k + 1);
      }
    }
  }

  // The hole is two intervals wide.
  lemma HoleIsTwoWide(t: Thresholds, s: Stream, lo: nat, k: nat)
    requires 0 < s.interval < t.maxSampleGap && lo < k
    ensures NoHole(t, HoledStamps(s, lo, k)) <==> 2 * s.interval <= t.maxSampleGap
  {
    var times := HoledStamps(s, lo, k);
    var before, after := s.Stamp(k - 1), s.Stamp(k + 1);
    StampOrder(s, k - 1, k + 1);
    assert before in Stamps(s, lo, k - 1) && after in times;
    forall u | u in times ensures u <= before || u == after {
      Earliest(s, lo, k - 1, u, after);
    }
    assert HasSuccessor(t, times, before) <==> after <= before + t.maxSampleGap;
    assert !IsNewest(times, before);
    if 2 * s.interval <= t.maxSampleGap {
      forall at | at in times ensures IsNewest(times, at) || HasSuccessor(t, times, at) {
        if at == after {
          assert IsNewest(times, at);
        } else if at != before {
          InnerSuccessor(t, s, lo, k - 1, at, times);
        }
      }
    }
  }

  lemma Earliest(s: Stream, lo: nat, k: nat, u: Time, other: Time)
    requires 0 < s.interval && (u in Stamps(s, lo, k) || u == other)
    ensures u <= s.Stamp(k) || u == other
  {
    if u in Stamps(s, lo, k) {
      var i: nat :| lo <= i <= k && u == s.Stamp(i);
      StampOrder(s, i, k);
    }
  }

  lemma InnerSuccessor(t: Thresholds, s: Stream, lo: nat, k: nat, at: Time, times: set<Time>)
    requires 0 < s.interval < t.maxSampleGap && at in Stamps(s, lo, k) && at != s.Stamp(k) && Stamps(s, lo, k) <= times
    ensures HasSuccessor(t, times, at)
  {
    var i: nat :| lo <= i <= k && at == s.Stamp(i);
    StampOrder(s, i, i + 1);
    assert s.Stamp(i + 1) in Stamps(s, lo, k);
  }

  lemma ReachesBack(t: Thresholds, s: Stream, lo: nat, k: nat)
    requires 0 < s.interval && lo < k
    ensures var now := s.Stamp(k + 1);
      OldestReachesBack(t, HoledStamps(s, lo, k), now) <==> t.window - t.maxSampleGap <= (k + 1 - lo) * s.interval
  {
    var times, now := HoledStamps(s, lo, k), s.Stamp(k + 1);
    StampOrder(s, lo, k + 1);
    assert s.Stamp(lo) in Stamps(s, lo, k - 1);
    forall u | u in times ensures s.Stamp(lo) <= u {
      if u in Stamps(s, lo, k - 1) {
        var i: nat :| lo <= i <= k - 1 && u == s.Stamp(i);
        StampOrder(s, lo, i);
      }
    }
  }

  lemma TwoIntervalsFit(window: Duration, interval: Duration)
    requires 0 < interval && 2 * interval < window
    ensures 2 <= window / interval
  {
    var q := window / interval;
    assert window < (q + 1) * interval;
    MulOrder(2, q + 1, interval);
  }

  // What is left of the window spans enough, and holds enough cycles if and only if
  // one cycle fewer than the window can hold is enough.
  lemma LeftInWindow(t: Thresholds, interval: Duration, k: nat)
    requires t.Valid() && 0 < interval < t.maxSampleGap && 0 < k && ConfirmedAt(t, interval, k - 1)
    ensures var lo := OldestKept(t, interval, k + 1);
      && (2 * interval <= t.maxSampleGap ==> lo < k)
      && t.window - t.maxSampleGap <= (k + 1 - lo) * interval
      && (lo < k ==> (t.minSamples <= k - lo + 1 <==> t.minSamples <= t.window / interval))
  {
    WindowSpansEnough(t, interval);
    SpanMeans(t.window - t.maxSampleGap, interval, k + 1 - OldestKept(t, interval, k + 1));
    if 2 * interval <= t.maxSampleGap {
      TwoIntervalsFit(t.window, interval);
    }
  }

  ghost predicate Tolerates(t: Thresholds, interval: Duration)
    requires 0 < interval
  {
    2 * interval <= t.maxSampleGap && t.minSamples <= t.window / interval
  }

  lemma HoledNode(t: Thresholds, s: Stream, j: Job, k: nat, n: string)
    requires t.Valid() && Steady(t, s, j) && s.interval < t.maxSampleGap && n in j.nodes
    requires 0 < k && ConfirmedAt(t, s.interval, k - 1) && OldestKept(t, s.interval, k + 1) < k
    ensures NodeCovered(t, Holed(s, OldestKept(t, s.interval, k + 1), k), n, s.Stamp(k + 1)) <==> Tolerates(t, s.interval)
  {
    var lo := OldestKept(t, s.interval, k + 1);
    LeftInWindow(t, s.interval, k);
    TimesOfHoled(t, s, j, lo, k, n);
    HoledStampsSize(s, lo, k);
    UniformHoled(t, s, j, lo, k, n);
    HoleIsTwoWide(t, s, lo, k);
    ReachesBack(t, s, lo, k);
    assert s.Stamp(k + 1) in HoledStamps(s, lo, k);
  }

  // With nothing left but the newest cycle, the window is not covered at all.
  lemma OnlyNewest(t: Thresholds, s: Stream, j: Job, lo: nat, k: nat)
    requires t.Valid() && Steady(t, s, j) && 0 < k <= lo
    ensures !Confirmed(t, Holed(s, lo, k), j, s.Stamp(k + 1))
  {
    var n := j.nodes[0];
    assert n in j.nodes;
    assert Holed(s, lo, k) == s.snapshot(k + 1);
    TimesOfSnapshot(t, s, j, k + 1, n);
    assert !OldestReachesBack(t, Times(Holed(s, lo, k), n), s.Stamp(k + 1));
    assert !NodeCovered(t, Holed(s, lo, k), n, s.Stamp(k + 1));
  }

  lemma HoledNodes(t: Thresholds, s: Stream, j: Job, k: nat)
    requires t.Valid() && Steady(t, s, j) && s.interval < t.maxSampleGap
    requires 0 < k && ConfirmedAt(t, s.interval, k - 1) && OldestKept(t, s.interval, k + 1) < k
    ensures var w := Holed(s, OldestKept(t, s.interval, k + 1), k);
      (forall n :: n in j.nodes ==> NodeCovered(t, w, n, s.Stamp(k + 1))) <==> Tolerates(t, s.interval)
  {
    var w := Holed(s, OldestKept(t, s.interval, k + 1), k);
    forall n | n in j.nodes ensures NodeCovered(t, w, n, s.Stamp(k + 1)) <==> Tolerates(t, s.interval) {
      HoledNode(t, s, j, k, n);
    }
    assert j.nodes[0] in j.nodes;
  }

  lemma SetTwice<T>(g: set<T>)
    ensures g + g == g
  {
  }

  lemma HoledGPUs(t: Thresholds, s: Stream, j: Job, lo: nat, k: nat)
    requires Steady(t, s, j) && lo < k
    ensures GPUs(Holed(s, lo, k)) == GPUs(s.snapshot(0))
  {
    GPUsAppend(Between(s, lo, k - 1), s.snapshot(k + 1));
    GPUsOfWindow(t, s, j, lo, k - 1);
    assert SteadyAt(t, s, j, k + 1);
    SetTwice(GPUs(s.snapshot(0)));
  }

  // The window with the hole confirms the breach if and only if the gap is at
  // least two intervals, and one cycle fewer than the window can hold is enough.
  lemma HoledConfirms(t: Thresholds, s: Stream, j: Job, k: nat)
    requires t.Valid() && Steady(t, s, j) && s.interval < t.maxSampleGap
    requires 0 < k && ConfirmedAt(t, s.interval, k - 1)
    ensures Confirmed(t, Holed(s, OldestKept(t, s.interval, k + 1), k), j, s.Stamp(k + 1)) <==> Tolerates(t, s.interval)
  {
    var lo := OldestKept(t, s.interval, k + 1);
    if lo < k {
      AllBreach(t, s, j, lo, k);
      HoledGPUs(t, s, j, lo, k);
      HoledNodes(t, s, j, k);
    } else {
      LeftInWindow(t, s.interval, k);
      OnlyNewest(t, s, j, lo, k);
    }
  }

  lemma AllBreach(t: Thresholds, s: Stream, j: Job, lo: nat, k: nat)
    requires Steady(t, s, j)
    ensures forall x :: x in Holed(s, lo, k) ==> Breaches(t, x)
  {
    forall x | x in Holed(s, lo, k) ensures Breaches(t, x) {
      if x in s.snapshot(k + 1) {
        assert SteadyAt(t, s, j, k + 1);
      } else {
        BetweenMembers(s, lo, k - 1, x);
        var m: nat :| lo <= m <= k - 1 && x in s.snapshot(m);
        assert SteadyAt(t, s, j, m);
      }
    }
  }

  // ---- The run ----

  // Operation n judges cycle k + 1, and of cycle k the engine was told nothing.
  ghost predicate JudgesAfterMissed(c: Rules, run: Run, a: nat, n: nat, s: Stream, j: Job, k: nat) {
    && Follows(c, run, a, n, s, j, k, [Delivered(s, j, k + 1)])
    && n < |run.ops| && Matches(c, run.ops[n], Judging(s, j, k + 1))
  }

  // One step back, for a run that missed cycle k.
  lemma BeforeMissed(c: Rules, run: Run, a: nat, n: nat, s: Stream, j: Job, k: nat)
    requires Follows(c, run, a, n, s, j, k, [Delivered(s, j, k + 1)])
    ensures a < n
    ensures var op := run.ops[n - 1];
      if !Tells(op, j.id) then Follows(c, run, a, n - 1, s, j, k, [Delivered(s, j, k + 1)]) && (op.Forgetting? ==> j.id in op.active)
      else Matches(c, op, Delivered(s, j, k + 1)) && Follows(c, run, a, n - 1, s, j, k, [])
  {
    SomethingTold(c, run, a, n, s, j, k, [Delivered(s, j, k + 1)]);
    var op, told := run.ops[n - 1], Told(run.ops[a..n - 1], j.id);
    ToldStep(run.ops, a, n, j.id);
    if Tells(op, j.id) {
      LastMatches(c, told, Cycles(s, j, k), op, Delivered(s, j, k + 1));
      assert Cycles(s, j, k) + [] == Cycles(s, j, k);
    } else {
      assert told + [] == told;
    }
  }

  // The clock of the breach runs from the cycle that confirmed it on.
  lemma {:induction false} ClockStaysSet(c: Rules, run: Run, a: nat, n: nat, s: Stream, j: Job, k: nat)
    requires Follows(c, run, a, n, s, j, k, []) && s.interval < c.t.maxSampleGap && UNSET < s.from
    requires 0 < k && ConfirmedAt(c.t, s.interval, k - 1)
    ensures RecordFor(run.ms[n], j).breachedSince != UNSET
    decreases n
  {
    SomethingTold(c, run, a, n, s, j, k, []);
    Before(c, run, a, n, s, j, k, false);
    if !Tells(run.ops[n - 1], j.id) {
      ClockStaysSet(c, run, a, n - 1, s, j, k);
      StepKeeps(c, run, n - 1, j);
    } else {
      ClockIsSet(c, run, a, n - 1, s, j, k - 1);
    }
  }

  lemma FirstIsInStream(t: Thresholds, s: Stream, j: Job, lo: nat, k: nat)
    requires Steady(t, s, j) && Between(s, lo, k) != []
    ensures s.from <= First(Between(s, lo, k))
  {
    var earliest := FirstIsEarliest(Between(s, lo, k));
    BetweenMembers(s, lo, k, earliest);
    var m: nat :| lo <= m <= k && earliest in s.snapshot(m);
    assert SteadyAt(t, s, j, m);
    StampOrder(s, 0, m);
  }

  lemma ClockIsSet(c: Rules, run: Run, a: nat, n: nat, s: Stream, j: Job, k: nat)
    requires JudgesCycle(c, run, a, n, s, j, k) && s.interval < c.t.maxSampleGap && UNSET < s.from && ConfirmedAt(c.t, s.interval, k)
    ensures RecordFor(run.ms[n + 1], j).breachedSince != UNSET
  {
    ConfirmedFrom(c, run, a, n, s, j, k);
    BreachMeans(c, run, n);
    KeptWhen(c, run, a, n, s, j, k, true);
    KeptHolds(c, run.ms[n], s, j, k);
    FirstIsInStream(c.t, s, j, OldestKept(c.t, s.interval, k), k);
  }

  // What is kept and what the clock says when the cycle after the hole is judged.
  lemma {:induction false} KeptWhenMissed(c: Rules, run: Run, a: nat, n: nat, s: Stream, j: Job, k: nat)
    requires Follows(c, run, a, n, s, j, k, [Delivered(s, j, k + 1)]) && s.interval < c.t.maxSampleGap && UNSET < s.from
    requires 0 < k && ConfirmedAt(c.t, s.interval, k - 1)
    ensures RecordFor(run.ms[n], j).samples == Holed(s, OldestKept(c.t, s.interval, k + 1), k)
    ensures RecordFor(run.ms[n], j).breachedSince != UNSET
    decreases n
  {
    BeforeMissed(c, run, a, n, s, j, k);
    if !Tells(run.ops[n - 1], j.id) {
      KeptWhenMissed(c, run, a, n - 1, s, j, k);
      StepKeeps(c, run, n - 1, j);
    } else {
      KeptWhen(c, run, a, n - 1, s, j, k, false);
      ClockStaysSet(c, run, a, n - 1, s, j, k);
      HoledDelivery(c, run, n - 1, s, j, k);
    }
  }

  lemma HoledDelivery(c: Rules, run: Run, n: nat, s: Stream, j: Job, k: nat)
    requires IsRun(c, run) && c.t.Valid() && Steady(c.t, s, j) && n < |run.ops| && 0 < k
    requires Matches(c, run.ops[n], Delivered(s, j, k + 1)) && Keeps(c, run.ms[n], s, j, k - 1)
    ensures RecordFor(run.ms[n + 1], j).samples == Holed(s, OldestKept(c.t, s.interval, k + 1), k)
    ensures RecordFor(run.ms[n + 1], j).breachedSince == RecordFor(run.ms[n], j).breachedSince
  {
    StampOrder(s, 0, k + 1);
    StepStored(c, run, n, s, j, k + 1);
    HoledWindow(c.t, s, j, k);
    DeliveryLeavesClock(c, run, n);
  }

  lemma DeliveryLeavesClock(c: Rules, run: Run, n: nat)
    requires IsRun(c, run) && n < |run.ops| && run.ops[n].Observing?
    ensures RecordFor(run.ms[n + 1], run.ops[n].j).breachedSince == RecordFor(run.ms[n], run.ops[n].j).breachedSince
  {
    assert Stepped(c, run, n);
  }

  lemma HoledWindow(t: Thresholds, s: Stream, j: Job, k: nat)
    requires t.Valid() && Steady(t, s, j) && 0 < k
    ensures Since(KeptAfter(t, s, k - 1) + s.snapshot(k + 1), s.Stamp(k + 1) - t.window) == Holed(s, OldestKept(t, s.interval, k + 1), k)
  {
    var before, cutoff, lo := s.Stamp(k - 1) - t.window, s.Stamp(k + 1) - t.window, OldestKept(t, s.interval, k + 1);
    StampOrder(s, k - 1, k + 1);
    OldestKeptMeans(t, s, k - 1);
    OldestKeptMeans(t, s, k + 1);
    Pruned(t, s, j, k - 1, OldestKept(t, s.interval, k - 1), before);
    Pruned(t, s, j, k - 1, lo, cutoff);
    SnapshotPruned(t, s, j, k + 1, lo, cutoff);
    PruneAgain(Between(s, 0, k - 1), s.snapshot(k + 1), before, cutoff);
    SinceAppend(Between(s, 0, k - 1), s.snapshot(k + 1), cutoff);
  }

  // A breach confirmed by cycle k - 1 survives a missed cycle k, with its clock
  // running on, if and only if the gap allowed is at least two intervals and one
  // cycle fewer than the window can hold is enough. If not, it starts from nothing.
  lemma MissedCycleIsTolerated(c: Rules, run: Run, a: nat, n: nat, s: Stream, j: Job, k: nat)
    requires JudgesAfterMissed(c, run, a, n, s, j, k) && s.interval < c.t.maxSampleGap && UNSET < s.from
    requires 0 < k && ConfirmedAt(c.t, s.interval, k - 1)
    ensures run.fs[n].reason == Breach <==> 2 * s.interval <= c.t.maxSampleGap && c.t.minSamples <= c.t.window / s.interval
    ensures RecordFor(run.ms[n], j).breachedSince != UNSET
    ensures run.fs[n].reason == Breach ==> run.fs[n].breachedSince == RecordFor(run.ms[n], j).breachedSince
    ensures run.fs[n].reason != Breach ==> run.fs[n].verdict == Healthy && Blank(RecordFor(run.ms[n + 1], j))
  {
    StampOrder(s, 0, k + 1);
    KeptWhenMissed(c, run, a, n, s, j, k);
    HoledIsNotEmpty(c.t, s, j, OldestKept(c.t, s.interval, k + 1), k);
    JudgedWhen(c, run, n);
    HoledConfirms(c.t, s, j, k);
    if run.fs[n].reason == Breach {
      BreachMeans(c, run, n);
    } else {
      QuietIsBlank(c, run, n);
    }
  }

  lemma HoledIsNotEmpty(t: Thresholds, s: Stream, j: Job, lo: nat, k: nat)
    requires Steady(t, s, j)
    ensures Holed(s, lo, k) != []
  {
    WindowIsNotEmpty(t, s, j, k + 1, k + 1);
    assert Between(s, k + 1, k) == [];
  }

  // Where the validator's product does not overflow, that is just what the comment
  // on a failed cycle says.
  lemma AcceptedIsTolerated(settings: Config.Settings, exempt: Job -> bool, run: Run, a: nat, n: nat, s: Stream, j: Job, k: nat)
    requires Config.Acceptable(settings) && s.interval == settings.interval
    requires settings.thresholds.minSamples * settings.interval < 0x8000_0000_0000_0000
    requires JudgesAfterMissed(Config.RulesOf(settings, exempt), run, a, n, s, j, k) && UNSET < s.from
    requires 0 < k && FirstConfirmed(settings.thresholds, s.interval) <= k - 1
    ensures run.fs[n].reason == Breach <==> 2 * settings.interval <= settings.thresholds.maxSampleGap
  {
    AcceptableTiming(settings);
    RuleWithoutOverflow(settings.thresholds, settings.interval);
    MissedCycleIsTolerated(Config.RulesOf(settings, exempt), run, a, n, s, j, k);
  }

  // As shipped, one missed cycle ends every steady breach.
  lemma DefaultsForgiveNothing(exempt: Job -> bool, run: Run, a: nat, n: nat, s: Stream, j: Job, k: nat)
    requires s.interval == 120_000_000_000 && UNSET < s.from && 10 <= k
    requires JudgesAfterMissed(Config.RulesOf(Config.DEFAULT_SETTINGS, exempt), run, a, n, s, j, k)
    ensures run.fs[n].reason != Breach
  {
    Config.DefaultsAreAcceptable();
    AcceptedIsTolerated(Config.DEFAULT_SETTINGS, exempt, run, a, n, s, j, k);
  }

  // A turn that fails tells the engine nothing of a job that it did not find gone.
  lemma FailedTurnTellsNothing(s: Setup, h: History, n: nat, id: string)
    requires IsHistory(s, h) && n < |h.turns| && !Succeeds(s, h.turns[n])
    requires h.turns[n].listing.Listed? ==> exists j :: j in h.turns[n].listing.jobs && j.id == id
    ensures |h.ws[n].run.ops| <= |h.ws[n + 1].run.ops|
    ensures var heard := h.ws[n + 1].run.ops[|h.ws[n].run.ops|..];
      Told(heard, id) == [] && StillListed(heard, id)
  {
    HistoryGrows(s, h, n, n + 1);
    assert TurnedAt(s, h, n);
    var samples, settled := TurnHalves(s, h.ws[n], h.turns[n]);
    var heard := h.ws[n + 1].run.ops[|h.ws[n].run.ops|..];
    if h.turns[n].listing.Listed? {
      assert heard == [Forgetting(Active(h.turns[n].listing.jobs))];
      assert heard[..0] == [];
    } else {
      assert heard == [];
    }
  }
}
