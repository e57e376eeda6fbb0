// What a daemon does with a job that holds GPUs and does not use them: the exact
// cycles at which it alerts, drains and cancels. The other theorems say what a
// cancellation requires; this one says that it happens.
module Escalation {
  import opened Telemetry
  import opened Policy
  import opened Runs
  import opened Ladder
  import opened Window
  import opened Contiguity
  import opened Actions
  import opened Daemon
  import opened Safety
  import opened Drains
  import opened Progress
  import Config
  import Isolation
  import opened Signatures
  import Stages
  import Startup

  // ---- One job in one turn ----

  lemma {:induction false} JudgedIsHeard(jobs: seq<Job>, samples: seq<Sample>, scope: seq<Job>, now: Time, j: Job) returns (k: nat)
    requires j in scope && FateOf(jobs, samples, j) == Judged
    ensures k < |SettleOps(jobs, samples, scope, now)| && SettleOps(jobs, samples, scope, now)[k] == Evaluating(j, now)
  {
    var rest := scope[..|scope| - 1];
    assert scope == rest + [scope[|scope| - 1]];
    if j in rest {
      k := JudgedIsHeard(jobs, samples, rest, now, j);
    } else {
      k := |SettleOps(jobs, samples, rest, now)| + 1;
    }
  }

  // The index in the engine's run at which turn n evaluates the job.
  ghost predicate EvaluatedAt(s: Setup, h: History, n: nat, j: Job, k: nat)
    requires |h.ws| == |h.turns| + 1 && n < |h.turns|
  {
    var run := h.ws[n + 1].run;
    && JudgedIn(s, h.turns[n], j)
    && |h.ws[n].run.ops| + 1 < k < |run.ops| == |run.fs| && |run.ms| == |run.ops| + 1
    && run.ops[k] == Evaluating(j, h.turns[n].now)
    && run.ops[k - 1] == Observing(j, OnNodes(SamplesOf(s, h.turns[n]), j.nodes), h.turns[n].now)
  }

  lemma HeardAt(ops: seq<Op>, all: seq<Op>, from: nat, heard: seq<Op>, r: nat)
    requires from <= |ops| && ops[from..] == heard && r < |heard| && ops <= all
    ensures from + r < |all| && all[from + r] == heard[r]
  {
    assert ops[from..][r] == ops[from + r];
  }

  lemma HeardAfter(ops: seq<Op>, all: seq<Op>, from: nat, jobs: seq<Job>, samples: seq<Sample>, scope: seq<Job>, now: Time, j: Job) returns (k: nat)
    requires from <= |ops| && ops[from..] == SettleOps(jobs, samples, scope, now) && ops <= all
    requires j in scope && FateOf(jobs, samples, j) == Judged
    ensures from <= k < |all| && all[k] == Evaluating(j, now)
  {
    var r := JudgedIsHeard(jobs, samples, scope, now, j);
    k := from + r;
    HeardAt(ops, all, from, SettleOps(jobs, samples, scope, now), r);
  }

  lemma HeardIn(s: Setup, w: World, jobs: seq<Job>, samples: seq<Sample>, now: Time, settled: Run, w': World, j: Job) returns (k: nat)
    requires Halves(s, w, jobs, samples, now, settled, w') && j in InScope(s, jobs) && FateOf(jobs, samples, j) == Judged
    ensures |w.run.ops| < k < |w'.run.ops| && w'.run.ops[k] == Evaluating(j, now)
  {
    SettledTail(s, w, jobs, samples, now, settled, w');
    k := HeardAfter(settled.ops, w'.run.ops, |w.run.ops| + 1, jobs, samples, InScope(s, jobs), now, j);
  }

  lemma JobIsEvaluated(s: Setup, h: History, n: nat, j: Job) returns (k: nat)
    requires IsHistory(s, h) && n < |h.turns| && JudgedIn(s, h.turns[n], j)
    ensures EvaluatedAt(s, h, n, j, k)
  {
    HistoryGrows(s, h, n, n + 1);
    assert TurnedAt(s, h, n);
    var turn := h.turns[n];
    var samples, settled := TurnHalves(s, h.ws[n], turn);
    k := HeardIn(s, h.ws[n], turn.listing.jobs, samples, turn.now, settled, h.ws[n + 1], j);
    OpOrigin(s, h, n, k);
    OpOfForgetting(s, h, n);
  }

  // ---- A cluster that does what it is told ----

  // Whatever reaches the cluster is done. With a gate closed nothing does.
  ghost predicate Obliging(w: Wiring) {
    w.live && w.enforce ==> forall n: nat :: w.answers(n)
  }

  ghost predicate AllOk(calls: seq<Call>) {
    forall i :: 0 <= i < |calls| ==> calls[i].ok
  }

  lemma {:induction false} DrainObliging(w: Wiring, calls: seq<Call>, job: string, nodes: seq<string>)
    requires Obliging(w) && w.enforce
    ensures var e := DrainNodes(w, calls, job, nodes); e.ok && e.outcome == Acted && (AllOk(calls) ==> AllOk(e.calls))
  {
    if nodes != [] {
      DrainObliging(w, calls, job, nodes[..|nodes| - 1]);
    }
  }

  // Nothing fails, and a drain that is asked for is to be confirmed.
  lemma HandledObliging(w: Wiring, calls: seq<Call>, f: Finding)
    requires Obliging(w)
    ensures var e := Handled(w, calls, f);
      && (AllOk(calls) ==> AllOk(e.calls))
      && (f.verdict == Drain && !f.drainConfirmed ==> Confirmable(f, e))
  {
    if w.enforce {
      DrainObliging(w, calls, f.job.id, f.job.nodes);
    }
  }

  lemma {:induction false} ActObliging(w: Wiring, calls: seq<Call>, findings: seq<Finding>, now: Time)
    requires Obliging(w) && AllOk(calls)
    ensures AllOk(Act(w, calls, findings, now).calls)
  {
    if findings != [] {
      var rest, last := findings[..|findings| - 1], findings[|findings| - 1];
      ActObliging(w, calls, rest, now);
      HandledObliging(w, Act(w, calls, rest, now).calls, last);
    }
  }

  lemma {:induction false} ActConfirms(w: Wiring, calls: seq<Call>, findings: seq<Finding>, now: Time, f: Finding)
    requires Obliging(w) && f in findings && f.verdict == Drain && !f.drainConfirmed
    ensures Confirming(f.job, now) in Act(w, calls, findings, now).confirms
  {
    var rest, last := findings[..|findings| - 1], findings[|findings| - 1];
    assert findings == rest + [last];
    if last == f {
      HandledObliging(w, Act(w, calls, rest, now).calls, f);
    } else {
      ActConfirms(w, calls, rest, now, f);
    }
  }

  lemma {:induction false} NoCallFails(s: Setup, h: History, n: nat)
    requires IsHistory(s, h) && n <= |h.turns| && Obliging(s.wiring)
    ensures AllOk(h.ws[n].calls)
  {
    if n > 0 {
      NoCallFails(s, h, n - 1);
      HistoryGrows(s, h, n - 1, n - 1);
      assert TurnedAt(s, h, n - 1);
      var samples, settled := TurnHalves(s, h.ws[n - 1], h.turns[n - 1]);
      if Succeeds(s, h.turns[n - 1]) {
        ActObliging(s.wiring, h.ws[n - 1].calls, ReportsSince(settled, |h.ws[n - 1].run.ops|), h.turns[n - 1].now);
      }
    }
  }

  lemma DrainIsConfirmed(s: Setup, w: World, jobs: seq<Job>, samples: seq<Sample>, now: Time, settled: Run, w': World, k: nat)
    requires Halves(s, w, jobs, samples, now, settled, w') && Obliging(s.wiring)
    requires |w.run.ops| <= k < |settled.ops| && settled.ops[k].Evaluating? && settled.fs[k].verdict == Drain && !settled.fs[k].drainConfirmed
    ensures Confirming(settled.ops[k].j, now) in w'.run.ops[|settled.ops|..]
  {
    FindingReported(s, w, jobs, samples, now, settled, w', k);
    ActConfirms(s.wiring, w.calls, ReportsSince(settled, |w.run.ops|), now, settled.fs[k]);
    assert w'.run.ops[|settled.ops|..] == Act(s.wiring, w.calls, ReportsSince(settled, |w.run.ops|), now).confirms;
  }

  // A turn that finds a job at Drain, not drained before, records the drain if no
  // call fails; so also with a gate closed, as in observe mode, where the drain is
  // only said to have been done and no call is made.
  lemma DrainIsRecorded(s: Setup, h: History, n: nat, k: nat)
    requires IsHistory(s, h) && n < |h.turns| && Obliging(s.wiring)
    requires h.turns[n].listing.Listed? && Distinct(h.turns[n].listing.jobs) && h.turns[n].now != UNSET
    requires |h.ws[n].run.ops| <= k < |h.ws[n + 1].run.ops| == |h.ws[n + 1].run.fs| && h.ws[n + 1].run.ops[k].Evaluating?
    requires h.ws[n + 1].run.fs[k].verdict == Drain && !h.ws[n + 1].run.fs[k].drainConfirmed
    ensures var j := h.ws[n + 1].run.ops[k].j;
      && Started(h.ws[n + 1].run) && DrainedAt(Last(h.ws[n + 1].run), j.id, j.startTime, h.turns[n].now)
      && (!(s.wiring.live && s.wiring.enforce) ==> h.ws[n + 1].calls == [])
  {
    var w, w', turn := h.ws[n], h.ws[n + 1], h.turns[n];
    var samples, settled := EvaluatedBeforeActing(s, h, n, k);
    StillToBeDrained(s, w, turn.listing.jobs, samples, turn.now, settled, w', k);
    RecordedOrNot(s, h, n, samples, settled, w'.run.ops[k].j);
    DrainIsConfirmed(s, w, turn.listing.jobs, samples, turn.now, settled, w', k);
    if !(s.wiring.live && s.wiring.enforce) {
      ObserveModeTouchesNothing(s, h, n + 1);
    }
  }

  // The record at the end of a turn: as the evaluation left it, and confirmed if
  // that is what it called for.
  lemma RecordAfterTurn(s: Setup, h: History, n: nat, j: Job, k: nat)
    requires IsHistory(s, h) && n < |h.turns| && EvaluatedAt(s, h, n, j, k) && Obliging(s.wiring)
    requires Distinct(h.turns[n].listing.jobs) && h.turns[n].now != UNSET
    requires Holds(h.ws[n + 1].run.ms[k + 1], j.id, j.startTime)
    requires var f, r := h.ws[n + 1].run.fs[k], h.ws[n + 1].run.ms[k + 1].jobs[j.id];
      f.verdict == r.lastVerdict && (f.verdict == Drain ==> f.drainConfirmed == (r.drainConfirmedAt != UNSET))
    ensures Started(h.ws[n + 1].run) && Holds(Last(h.ws[n + 1].run), j.id, j.startTime)
    ensures var m := h.ws[n + 1].run.ms[k + 1];
      Last(h.ws[n + 1].run).jobs[j.id] ==
        if ToBeDrained(m, j) then m.jobs[j.id].(drainConfirmedAt := h.turns[n].now) else m.jobs[j.id]
  {
    HistoryGrows(s, h, n, n + 1);
    var w, w', turn := h.ws[n], h.ws[n + 1], h.turns[n];
    var samples, settled := EvaluatedBeforeActing(s, h, n, k);
    KeptUntilActing(s, w, turn.listing.jobs, samples, turn.now, settled, w', k);
    ActingConfirms(s, h, n, samples, settled, j);
    ConfirmsAtMost(s.rules, w'.run, |settled.ops|, |w'.run.ops|, j, turn.now);
    if ToBeDrained(w'.run.ms[k + 1], j) {
      DrainIsRecorded(s, h, n, k);
    }
  }

  // ---- One cycle of a steady stream ----

  // How high the job is on the ladder, and since when it is drained.
  datatype Rung = Rung(last: Verdict, drained: Time)

  const BOTTOM := Rung(Healthy, UNSET)

  function Kept(t: Thresholds, st: Stream, k: nat): seq<Sample>
    requires t.Valid() && 0 < st.interval
  {
    Between(st, OldestKept(t, st.interval, k), k)
  }

  function SignatureAt(t: Thresholds, st: Stream, k: nat): Signature
    requires t.Valid() && 0 < st.interval
  {
    Classify(Summary(Kept(t, st, k)), t)
  }

  // What cycle k, confirming the breach, makes of the rung before it.
  function ClimbAt(c: Rules, allowed: set<Signature>, st: Stream, before: Rung, k: nat): Verdict
    requires c.t.Valid() && 0 < st.interval
  {
    Climb(c.t, FreshRecord(UNSET).(lastVerdict := before.last, drainConfirmedAt := before.drained),
          Capped(StageFor(c.stages, k * st.interval), SignatureAt(c.t, st, k), allowed), st.Stamp(k))
  }

  // The rung after i cycles, every drain being carried out at once.
  function RungAfter(c: Rules, allowed: set<Signature>, st: Stream, i: nat): Rung
    requires c.t.Valid() && 0 < st.interval
  {
    if i == 0 || !ConfirmedAt(c.t, st.interval, i - 1) then BOTTOM
    else
      var before := RungAfter(c, allowed, st, i - 1);
      var v := ClimbAt(c, allowed, st, before, i - 1);
      Rung(v, if v == Drain && before.drained == UNSET then st.Stamp(i - 1) else before.drained)
  }

  // Nothing has been kept of this incarnation of the job.
  predicate Unheard(m: Memory, j: Job) {
    RecordFor(m, j) == FreshRecord(j.startTime)
  }

  // The record holds what it kept of the first i cycles, and stands on the rung.
  ghost predicate Standing(c: Rules, m: Memory, st: Stream, j: Job, i: nat, rung: Rung)
    requires c.t.Valid() && 0 < st.interval
  {
    if i == 0 then Unheard(m, j) && rung == BOTTOM
    else
      && Holds(m, j.id, j.startTime)
      && m.jobs[j.id].samples == Kept(c.t, st, i - 1)
      && OnRung(c, m.jobs[j.id], st, i, rung)
  }

  ghost predicate OnRung(c: Rules, r: JobRecord, st: Stream, i: nat, rung: Rung)
    requires c.t.Valid() && 0 < st.interval
  {
    && r.lastVerdict == rung.last && r.drainConfirmedAt == rung.drained
    && r.breachedSince == if i > 0 && ConfirmedAt(c.t, st.interval, i - 1) then st.from else UNSET
  }

  lemma DeliveryCharges(c: Rules, run: Run, n: nat)
    requires IsRun(c, run) && n < |run.ops| && run.ops[n].Observing?
    ensures var j := run.ops[n].j;
      Holds(run.ms[n + 1], j.id, j.startTime) && SameCharge(RecordFor(run.ms[n], j), run.ms[n + 1].jobs[j.id])
  {
    assert Stepped(c, run, n);
  }

  lemma SteadyDelivery(c: Rules, run: Run, n: nat, st: Stream, j: Job, i: nat, rung: Rung)
    requires IsRun(c, run) && c.t.Valid() && Steady(c.t, st, j)
    requires n < |run.ops| && run.ops[n] == Observing(j, st.snapshot(i), st.Stamp(i))
    requires Standing(c, run.ms[n], st, j, i, rung)
    ensures Holds(run.ms[n + 1], j.id, j.startTime) && run.ms[n + 1].jobs[j.id].samples == Kept(c.t, st, i)
    ensures OnRung(c, run.ms[n + 1].jobs[j.id], st, i, rung)
  {
    StampOrder(st, 0, i);
    StepStored(c, run, n, st, j, i);
    DeliveryCharges(c, run, n);
    if i == 0 {
      assert RecordFor(run.ms[n], j).samples == Between(st, 0, -1);
      FirstWindow(c.t, st, j);
    } else {
      KeptWindow(c.t, st, j, i);
    }
  }

  // The first time a steady breach is confirmed, nothing has left the window yet.
  lemma FirstConfirmedKeepsAll(t: Thresholds, interval: Duration)
    requires t.Valid() && 0 < interval < t.maxSampleGap && FitsWindow(t, interval)
    ensures OldestKept(t, interval, FirstConfirmed(t, interval)) == 0 < FirstConfirmed(t, interval)
  {
    WindowSpansEnough(t, interval);
    SpanMeans(t.window - t.maxSampleGap, interval, 0);
  }

  lemma FirstStamp(t: Thresholds, st: Stream, j: Job, k: nat)
    requires Steady(t, st, j) && Between(st, 0, k) != []
    ensures First(Between(st, 0, k)) == st.from
  {
    var all := Between(st, 0, k);
    var earliest := FirstIsEarliest(all);
    assert SteadyAt(t, st, j, 0);
    assert j.nodes[0] in j.nodes;
    CountPositive(st.snapshot(0), j.nodes[0], st.Stamp(0));
    var x :| x in st.snapshot(0) && x.timestamp == st.Stamp(0);
    BetweenMembers(st, 0, k, x);
    BetweenMembers(st, 0, k, earliest);
    var m: nat :| m <= k && earliest in st.snapshot(m);
    assert SteadyAt(t, st, j, m);
    StampOrder(st, 0, m);
  }

  lemma BreachIsSigned(c: Rules, run: Run, n: nat)
    requires IsRun(c, run) && n < |run.ops| && run.ops[n].Evaluating? && run.fs[n].reason == Breach
    ensures var j := run.ops[n].j;
      && Holds(run.ms[n], j.id, j.startTime)
      && run.fs[n].signature == Classify(Summary(run.ms[n].jobs[j.id].samples), c.t)
      && run.fs[n].drainConfirmed == (run.ms[n].jobs[j.id].drainConfirmedAt != UNSET)
  {
    assert Stepped(c, run, n);
  }

  // What cycle i is about to judge.
  ghost predicate AboutToJudge(c: Rules, run: Run, n: nat, st: Stream, j: Job, i: nat)
    requires IsRun(c, run) && c.t.Valid() && Steady(c.t, st, j)
  {
    && st.interval < c.t.maxSampleGap && !c.exempt(j) && UNSET < st.from
    && n < |run.ops| && run.ops[n] == Evaluating(j, st.Stamp(i))
    && Holds(run.ms[n], j.id, j.startTime) && run.ms[n].jobs[j.id].samples == Kept(c.t, st, i)
  }

  lemma JudgedExactly(c: Rules, run: Run, n: nat, st: Stream, j: Job, i: nat)
    requires IsRun(c, run) && c.t.Valid() && Steady(c.t, st, j) && AboutToJudge(c, run, n, st, j, i)
    ensures run.fs[n].reason == Breach <==> ConfirmedAt(c.t, st.interval, i)
    ensures Holds(run.ms[n + 1], j.id, j.startTime) && run.ms[n + 1].jobs[j.id].samples == Kept(c.t, st, i)
    ensures run.fs[n].reason != Breach ==> run.fs[n].verdict == Healthy && Blank(run.ms[n + 1].jobs[j.id])
  {
    StampOrder(st, 0, i);
    JudgedWhen(c, run, n);
    WindowIsNotEmpty(c.t, st, j, OldestKept(c.t, st.interval, i), i);
    WindowConfirms(c.t, st, j, OldestKept(c.t, st.interval, i), i);
    EnoughFromThenOn(c.t, st, i);
    if run.fs[n].reason != Breach {
      QuietIsBlank(c, run, n);
    }
  }

  lemma BreachedSinceFirst(c: Rules, run: Run, n: nat, st: Stream, j: Job, i: nat, rung: Rung)
    requires IsRun(c, run) && c.t.Valid() && Steady(c.t, st, j) && AboutToJudge(c, run, n, st, j, i)
    requires OnRung(c, run.ms[n].jobs[j.id], st, i, rung) && ConfirmedAt(c.t, st.interval, i) && run.fs[n].reason == Breach
    ensures Holds(run.ms[n + 1], j.id, j.startTime)
    ensures run.fs[n].breachedSince == st.from == run.ms[n + 1].jobs[j.id].breachedSince
    ensures run.ms[n + 1].jobs[j.id].drainConfirmedAt == rung.drained && run.ms[n + 1].jobs[j.id].lastVerdict == run.fs[n].verdict
  {
    BreachMeans(c, run, n);
    FirstConfirmedKeepsAll(c.t, st.interval);
    if i == FirstConfirmed(c.t, st.interval) {
      FirstStamp(c.t, st, j, i);
    }
  }

  // The verdict of the cycle is the one the rungs say.
  lemma SteadyJudgement(c: Rules, run: Run, n: nat, st: Stream, j: Job, i: nat, allowed: set<Signature>)
    requires IsRun(c, run) && c.t.Valid() && Steady(c.t, st, j) && AboutToJudge(c, run, n, st, j, i)
    requires OnRung(c, run.ms[n].jobs[j.id], st, i, RungAfter(c, allowed, st, i)) && run.ms[n].cancellable == allowed
    ensures run.fs[n].verdict == RungAfter(c, allowed, st, i + 1).last
    ensures ConfirmedAt(c.t, st.interval, i) ==>
      run.fs[n].drainConfirmed == (RungAfter(c, allowed, st, i).drained != UNSET) && run.fs[n].signature == SignatureAt(c.t, st, i)
    ensures Holds(run.ms[n + 1], j.id, j.startTime) && run.ms[n + 1].jobs[j.id].samples == Kept(c.t, st, i)
    ensures var drained := if ConfirmedAt(c.t, st.interval, i) then RungAfter(c, allowed, st, i).drained else UNSET;
      OnRung(c, run.ms[n + 1].jobs[j.id], st, i + 1, Rung(run.fs[n].verdict, drained))
  {
    var before := RungAfter(c, allowed, st, i);
    JudgedExactly(c, run, n, st, j, i);
    if ConfirmedAt(c.t, st.interval, i) {
      BreachedSinceFirst(c, run, n, st, j, i, before);
      BreachIsSigned(c, run, n);
      BreachClimbs(c, run, n);
      StampOrder(st, 0, i);
      assert run.fs[n].verdict == ClimbAt(c, allowed, st, before, i);
    }
  }

  // ---- The daemon, fed with a steady stream ----

  // Turn i lists the job, each job once, and what it attributes to the job is
  // cycle i of the stream.
  ghost predicate FedAt(s: Setup, turn: Turn, st: Stream, j: Job, i: nat) {
    && turn.listing.Listed? && Distinct(turn.listing.jobs)
    && JudgedIn(s, turn, j)
    && OnNodes(SamplesOf(s, turn), j.nodes) == st.snapshot(i) && turn.now == st.Stamp(i)
  }

  ghost predicate FedBy(s: Setup, h: History, st: Stream, k: Job, b: nat, i: nat)
    requires b + i < |h.turns|
  {
    FedAt(s, h.turns[b + i], st, k, i)
  }

  // The job may be called something else in every turn.
  ghost predicate FedFrom(s: Setup, h: History, st: Stream, j: Job, b: nat, i: nat)
    requires b + i < |h.turns|
  {
    exists k :: Alike(s.rules, k, j) && FedBy(s, h, st, k, b, i)
  }

  // The daemon has kept nothing of the job by turn b, and the K turns from there
  // on feed it the stream. Before, the job may have been absent, or not judged, or
  // judged within its warmup, as often as you like.
  ghost predicate Fed(s: Setup, h: History, st: Stream, j: Job, b: nat, K: nat) {
    && IsHistory(s, h) && b + K <= |h.turns|
    && Started(h.ws[b].run) && Unheard(Last(h.ws[b].run), j)
    && forall i {:trigger FedFrom(s, h, st, j, b, i)} :: 0 <= i < K ==> FedFrom(s, h, st, j, b, i)
  }

  // A daemon that may act on a job that is steadily in breach.
  ghost predicate Apt(s: Setup, st: Stream, j: Job) {
    && s.rules.t.Valid() && Steady(s.rules.t, st, j)
    && st.interval < s.rules.t.maxSampleGap && UNSET < st.from
    && !s.rules.exempt(j) && Obliging(s.wiring)
  }

  function AllowedIn(h: History): set<Signature> {
    Policy.AllowCancel(INITIAL, h.sigs).cancellable
  }

  lemma {:induction false} AllowedStays(s: Setup, h: History, n: nat, b: nat)
    requires IsHistory(s, h) && n <= |h.turns| && 0 < b <= |h.ws[n].run.ops| < |h.ws[n].run.ms|
    ensures h.ws[n].run.ms[b].cancellable == AllowedIn(h)
  {
    var run := h.ws[n].run;
    HistoryGrows(s, h, 0, n);
    if b == 1 {
      assert h.ws[0].run.ms[1] == run.ms[1];
    } else {
      AllowedStays(s, h, n, b - 1);
      var m := TurnOf(s, h, n, b - 1);
      OpOrigin(s, h, m, b - 1);
      HistoryGrows(s, h, m + 1, n);
      assert Stepped(s.rules, run, b - 1);
    }
  }

  lemma SameStands(c: Rules, m: Memory, m': Memory, st: Stream, j: Job, i: nat, rung: Rung)
    requires c.t.Valid() && 0 < st.interval
    requires Standing(c, m, st, j, i, rung) && Isolation.Same(m, m', j.id)
    ensures Standing(c, m', st, j, i, rung)
  {
  }

  // Turn n evaluates the job once, and finds what the rungs say of cycle i.
  ghost predicate Climbed(s: Setup, h: History, st: Stream, j: Job, n: nat, i: nat, k: nat)
    requires s.rules.t.Valid() && 0 < st.interval && IsHistory(s, h) && n < |h.turns|
  {
    && EvaluatedAt(s, h, n, j, k)
    && var f, c := h.ws[n + 1].run.fs[k], s.rules;
    && f.job == j && f.verdict == RungAfter(c, AllowedIn(h), st, i + 1).last
    && (ConfirmedAt(c.t, st.interval, i) ==>
         f.drainConfirmed == (RungAfter(c, AllowedIn(h), st, i).drained != UNSET) && f.signature == SignatureAt(c.t, st, i))
  }

  // One turn moves the job one rung.
  lemma TurnClimbs(s: Setup, h: History, st: Stream, j: Job, n: nat, i: nat) returns (k: nat)
    requires Apt(s, st, j) && IsHistory(s, h) && n < |h.turns| && FedAt(s, h.turns[n], st, j, i) && Started(h.ws[n].run)
    requires Standing(s.rules, Last(h.ws[n].run), st, j, i, RungAfter(s.rules, AllowedIn(h), st, i))
    ensures Climbed(s, h, st, j, n, i, k)
    ensures Started(h.ws[n + 1].run)
    ensures Standing(s.rules, Last(h.ws[n + 1].run), st, j, i + 1, RungAfter(s.rules, AllowedIn(h), st, i + 1))
  {
    var c, run := s.rules, h.ws[n + 1].run;
    HistoryGrows(s, h, n, n + 1);
    k := JobIsEvaluated(s, h, n, j);
    StandsWhenDelivered(s, h, st, j, n, i, k, RungAfter(c, AllowedIn(h), st, i));
    SteadyDelivery(c, run, k - 1, st, j, i, RungAfter(c, AllowedIn(h), st, i));
    AllowedStays(s, h, n + 1, k);
    SteadyJudgement(c, run, k, st, j, i, AllowedIn(h));
    FindingIsAbout(c, run, k);
    StampOrder(st, 0, i);
    RecordAfterTurn(s, h, n, j, k);
  }

  lemma StandsWhenDelivered(s: Setup, h: History, st: Stream, j: Job, n: nat, i: nat, k: nat, rung: Rung)
    requires Apt(s, st, j) && IsHistory(s, h) && n < |h.turns| && FedAt(s, h.turns[n], st, j, i) && Started(h.ws[n].run)
    requires Standing(s.rules, Last(h.ws[n].run), st, j, i, rung) && EvaluatedAt(s, h, n, j, k)
    ensures Standing(s.rules, h.ws[n + 1].run.ms[k - 1], st, j, i, rung)
  {
    RecordBeforeDelivery(s, h, n, k);
    SameStands(s.rules, Last(h.ws[n].run), h.ws[n + 1].run.ms[k - 1], st, j, i, rung);
  }

  lemma AlikeApt(s: Setup, st: Stream, j: Job, k: Job)
    requires Apt(s, st, j) && Alike(s.rules, k, j)
    ensures Apt(s, st, k)
  {
    forall i: nat ensures SteadyAt(s.rules.t, st, k, i) {
      assert SteadyAt(s.rules.t, st, j, i);
    }
  }

  lemma AlikeStands(c: Rules, m: Memory, st: Stream, j: Job, k: Job, i: nat, rung: Rung)
    requires c.t.Valid() && 0 < st.interval && Alike(c, k, j)
    ensures Standing(c, m, st, j, i, rung) <==> Standing(c, m, st, k, i, rung)
  {
  }

  // The same for a turn of a daemon that is fed, whatever it calls the job.
  lemma FedTurnClimbs(s: Setup, h: History, st: Stream, j: Job, b: nat, K: nat, i: nat) returns (who: Job, k: nat)
    requires Apt(s, st, j) && Fed(s, h, st, j, b, K) && i < K && Started(h.ws[b + i].run)
    requires Standing(s.rules, Last(h.ws[b + i].run), st, j, i, RungAfter(s.rules, AllowedIn(h), st, i))
    ensures Alike(s.rules, who, j) && FedBy(s, h, st, who, b, i) && Climbed(s, h, st, who, b + i, i, k)
    ensures Started(h.ws[b + (i + 1)].run)
    ensures Standing(s.rules, Last(h.ws[b + (i + 1)].run), st, j, i + 1, RungAfter(s.rules, AllowedIn(h), st, i + 1))
  {
    var n, allowed := b + i, AllowedIn(h);
    assert FedFrom(s, h, st, j, b, i);
    who :| Alike(s.rules, who, j) && FedBy(s, h, st, who, b, i);
    AlikeApt(s, st, j, who);
    AlikeStands(s.rules, Last(h.ws[n].run), st, j, who, i, RungAfter(s.rules, allowed, st, i));
    k := TurnClimbs(s, h, st, who, n, i);
    AlikeStands(s.rules, Last(h.ws[n + 1].run), st, j, who, i + 1, RungAfter(s.rules, allowed, st, i + 1));
  }

  // So after i turns it stands where the rungs say.
  lemma {:induction false} StandsAfter(s: Setup, h: History, st: Stream, j: Job, b: nat, K: nat, i: nat)
    requires Apt(s, st, j) && Fed(s, h, st, j, b, K) && i <= K
    ensures Started(h.ws[b + i].run)
    ensures Standing(s.rules, Last(h.ws[b + i].run), st, j, i, RungAfter(s.rules, AllowedIn(h), st, i))
  {
    if i == 0 {
    } else {
      StandsAfter(s, h, st, j, b, K, i - 1);
      var who, k := FedTurnClimbs(s, h, st, j, b, K, i - 1);
    }
  }

  // ---- A job that does not use its GPUs ----

  ghost predicate IdleStream(t: Thresholds, st: Stream) {
    forall i: nat, x :: x in st.snapshot(i) ==> IdleSample(t, x)
  }

  ghost predicate HungAt(t: Thresholds, st: Stream, i: nat) {
    && (forall x :: x in st.snapshot(i) ==> HoldsMemory(t, x) && x.util < 1.0)
    && exists x :: x in st.snapshot(i) && x.pidsKnown && x.pids != []
  }

  ghost predicate HungStream(t: Thresholds, st: Stream) {
    forall i: nat {:trigger HungAt(t, st, i)} :: HungAt(t, st, i)
  }

  // The two ways of not using them that are understood.
  ghost predicate Unused(t: Thresholds, st: Stream, sig: Signature) {
    (sig == Idle && IdleStream(t, st)) || (sig == Hung && HungStream(t, st))
  }

  lemma IdleAt(t: Thresholds, st: Stream, j: Job, k: nat)
    requires t.Valid() && Steady(t, st, j) && IdleStream(t, st)
    ensures SignatureAt(t, st, k) == Idle
  {
    var lo := OldestKept(t, st.interval, k);
    WindowIsNotEmpty(t, st, j, lo, k);
    forall x | x in Kept(t, st, k) ensures IdleSample(t, x) {
      BetweenMembers(st, lo, k, x);
    }
    IdleWindow(t, Kept(t, st, k));
  }

  lemma HungNow(t: Thresholds, st: Stream, j: Job, k: nat)
    requires t.Valid() && Steady(t, st, j) && HungStream(t, st)
    ensures SignatureAt(t, st, k) == Hung
  {
    var lo := OldestKept(t, st.interval, k);
    forall x | x in Kept(t, st, k) ensures HoldsMemory(t, x) && x.util < 1.0 {
      BetweenMembers(st, lo, k, x);
      var m: nat :| lo <= m <= k && x in st.snapshot(m);
      assert HungAt(t, st, m);
    }
    assert HungAt(t, st, k);
    var running :| running in st.snapshot(k) && running.pidsKnown && running.pids != [];
    BetweenMembers(st, lo, k, running);
    HungWindow(t, Kept(t, st, k), running);
  }

  lemma UnusedAt(t: Thresholds, st: Stream, j: Job, sig: Signature, k: nat)
    requires t.Valid() && Steady(t, st, j) && Unused(t, st, sig)
    ensures SignatureAt(t, st, k) == sig
  {
    if sig == Idle {
      IdleAt(t, st, j, k);
    } else {
      HungNow(t, st, j, k);
    }
  }

  // ---- The cycles at which it is alerted, drained and cancelled ----

  function CyclesToSpan(d: Duration, interval: Duration): nat
    requires 0 < interval
  {
    IntervalsToSpan(Max(0, d), interval)
  }

  lemma SpanReached(d: Duration, interval: Duration, k: nat)
    requires 0 < interval
    ensures d <= k * interval <==> CyclesToSpan(d, interval) <= k
  {
    SpanMeans(Max(0, d), interval, k);
    Positive(k, interval);
  }

  // From which dwell on the stages call for an alert, a drain and a cancellation.
  datatype Schedule = Schedule(alert: Duration, drain: Duration, cancel: Duration)

  ghost predicate Scheduled(stages: seq<Stage>, d: Schedule) {
    Stages.CallsFrom(stages, Alert, d.alert) && Stages.CallsFrom(stages, Drain, d.drain) && Stages.CallsFrom(stages, Cancel, d.cancel)
  }

  function AlertCycle(t: Thresholds, interval: Duration, d: Schedule): nat
    requires t.Valid() && 0 < interval
  {
    Max(FirstConfirmed(t, interval), CyclesToSpan(d.alert, interval))
  }

  function DrainCycle(t: Thresholds, interval: Duration, d: Schedule): nat
    requires t.Valid() && 0 < interval
  {
    Max(AlertCycle(t, interval, d) + 1, CyclesToSpan(d.drain, interval))
  }

  function CancelCycle(t: Thresholds, interval: Duration, d: Schedule): nat
    requires t.Valid() && 0 < interval
  {
    Max(DrainCycle(t, interval, d) + CyclesToSpan(t.window, interval), CyclesToSpan(d.cancel, interval))
  }

  // Where an idle job stands after cycle i.
  ghost predicate UnusedRung(t: Thresholds, st: Stream, d: Schedule, i: nat, rung: Rung)
    requires t.Valid() && 0 < st.interval
  {
    && (!rung.last.Below(Alert) <==> AlertCycle(t, st.interval, d) <= i)
    && (!rung.last.Below(Drain) <==> DrainCycle(t, st.interval, d) <= i)
    && (rung.last == Cancel <==> CancelCycle(t, st.interval, d) <= i)
    && rung.drained == if DrainCycle(t, st.interval, d) <= i then st.Stamp(DrainCycle(t, st.interval, d)) else UNSET
  }

  // One confirmed cycle of an idle job.
  lemma UnusedStep(c: Rules, allowed: set<Signature>, st: Stream, j: Job, sig: Signature, d: Schedule, i: nat, before: Rung)
    requires c.t.Valid() && Steady(c.t, st, j) && Unused(c.t, st, sig) && UNSET < st.from
    requires FitsWindow(c.t, st.interval) && sig in allowed && Scheduled(c.stages, d) && ConfirmedAt(c.t, st.interval, i)
    requires if i == 0 then before == BOTTOM else UnusedRung(c.t, st, d, i - 1, before)
    ensures var v := ClimbAt(c, allowed, st, before, i);
      UnusedRung(c.t, st, d, i, Rung(v, if v == Drain && before.drained == UNSET then st.Stamp(i) else before.drained))
  {
    UnusedAt(c.t, st, j, sig, i);
    SpanReached(d.alert, st.interval, i);
    SpanReached(d.drain, st.interval, i);
    SpanReached(d.cancel, st.interval, i);
    var drain := DrainCycle(c.t, st.interval, d);
    StampOrder(st, 0, drain);
    StampOrder(st, drain, i);
    SpanReached(c.t.window, st.interval, if drain <= i then i - drain else 0);
    ClimbExactly(c.t, allowed, FreshRecord(UNSET).(lastVerdict := before.last, drainConfirmedAt := before.drained), sig,
                 StageFor(c.stages, i * st.interval), st.Stamp(i));
  }

  lemma {:induction false} UnusedClimbs(c: Rules, allowed: set<Signature>, st: Stream, j: Job, sig: Signature, d: Schedule, i: nat)
    requires c.t.Valid() && Steady(c.t, st, j) && Unused(c.t, st, sig) && UNSET < st.from
    requires FitsWindow(c.t, st.interval) && sig in allowed && Scheduled(c.stages, d)
    ensures UnusedRung(c.t, st, d, i, RungAfter(c, allowed, st, i + 1))
  {
    if i > 0 {
      UnusedClimbs(c, allowed, st, j, sig, d, i - 1);
    }
    if ConfirmedAt(c.t, st.interval, i) {
      UnusedStep(c, allowed, st, j, sig, d, i, RungAfter(c, allowed, st, i));
    }
  }

  // ---- What reaches the cluster ----

  ghost predicate HasDrain(calls: seq<Call>, base: nat, id: string) {
    exists c :: base <= c < |calls| && calls[c].DrainCall? && calls[c].job == id
  }

  ghost predicate HasCancel(calls: seq<Call>, base: nat, id: string) {
    exists c :: base <= c < |calls| && calls[c].CancelCall? && calls[c].job == id
  }

  ghost predicate DrainCalled(h: History, i: nat, id: string)
    requires |h.ws| == |h.turns| + 1 && i < |h.turns|
  {
    HasDrain(h.ws[i + 1].calls, |h.ws[i].calls|, id)
  }

  ghost predicate CancelCalled(h: History, i: nat, id: string)
    requires |h.ws| == |h.turns| + 1 && i < |h.turns|
  {
    HasCancel(h.ws[i + 1].calls, |h.ws[i].calls|, id)
  }

  // A turn evaluates a job once.
  lemma EvaluatedOnce(s: Setup, h: History, n: nat, j: Job, k: nat, k': nat)
    requires IsHistory(s, h) && n < |h.turns| && EvaluatedAt(s, h, n, j, k) && Distinct(h.turns[n].listing.jobs)
    requires k < k' < |h.ws[n + 1].run.ops|
    ensures h.ws[n + 1].run.ops[k'] != Evaluating(j, h.turns[n].now)
  {
    if h.ws[n + 1].run.ops[k'] == Evaluating(j, h.turns[n].now) {
      var samples, settled := EvaluatedBeforeActing(s, h, n, k');
      ScopeIsDistinct(s, h.turns[n].listing.jobs);
      SettledTail(s, h.ws[n], h.turns[n].listing.jobs, samples, h.turns[n].now, settled, h.ws[n + 1]);
      NothingMore(h.turns[n].listing.jobs, samples, InScope(s, h.turns[n].listing.jobs), h.turns[n].now, settled.ops, |h.ws[n].run.ops| + 1, k);
      assert false;
    }
  }

  // So a call about the job answers that evaluation.
  lemma CallAnswers(s: Setup, h: History, n: nat, j: Job, k: nat, c: nat)
    requires IsHistory(s, h) && n < |h.turns| && EvaluatedAt(s, h, n, j, k) && Distinct(h.turns[n].listing.jobs)
    requires |h.ws[n].calls| <= c < |h.ws[n + 1].calls| && h.ws[n + 1].calls[c].job == j.id
    ensures Asks(h.ws[n + 1].run.fs[k], h.ws[n + 1].calls[c])
  {
    var k' := CallOrigin(s, h, n, c);
    ScopeIsListed(s, h.turns[n].listing.jobs);
    SameListing(s, h.turns[n], j, h.ws[n + 1].run.fs[k'].job);
    var other := JobIsEvaluated(s, h, n, j);
    if k < k' {
      EvaluatedOnce(s, h, n, j, k, k');
    } else if k' < k {
      OpOrigin(s, h, n, k');
      OpOfForgetting(s, h, n);
      EvaluatedOnce(s, h, n, j, k', k);
    }
  }

  lemma {:induction false} ActCancels(w: Wiring, calls: seq<Call>, findings: seq<Finding>, now: Time, f: Finding) returns (c: nat)
    requires w.live && w.enforce && f in findings && f.verdict == Cancel
    ensures var made := Act(w, calls, findings, now).calls;
      |calls| <= c < |made| && made[c].CancelCall? && made[c].job == f.job.id
  {
    var rest, last := findings[..|findings| - 1], findings[|findings| - 1];
    assert findings == rest + [last];
    var before, done := Act(w, calls, rest, now), Act(w, calls, findings, now);
    ActSends(w, calls, rest, now);
    HandleSends(w, before.calls, last);
    if last == f {
      c := |before.calls|;
      assert done.calls[c] == done.calls[|before.calls|..][0];
    } else {
      c := ActCancels(w, calls, rest, now, f);
    }
  }

  lemma CancelIsCalled(s: Setup, h: History, n: nat, j: Job, k: nat)
    requires IsHistory(s, h) && n < |h.turns| && EvaluatedAt(s, h, n, j, k) && s.wiring.live && s.wiring.enforce
    requires h.ws[n + 1].run.fs[k].verdict == Cancel
    ensures CancelCalled(h, n, j.id)
  {
    var turn := h.turns[n];
    var samples, settled := EvaluatedBeforeActing(s, h, n, k);
    FindingReported(s, h.ws[n], turn.listing.jobs, samples, turn.now, settled, h.ws[n + 1], k);
    var c := ActCancels(s.wiring, h.ws[n].calls, ReportsSince(settled, |h.ws[n].run.ops|), turn.now, settled.fs[k]);
  }

  lemma DrainIsCalled(s: Setup, h: History, n: nat, j: Job, k: nat)
    requires IsHistory(s, h) && n < |h.turns| && EvaluatedAt(s, h, n, j, k)
    requires s.wiring.live && s.wiring.enforce && Obliging(s.wiring)
    requires Distinct(h.turns[n].listing.jobs) && h.turns[n].now != UNSET && j.nodes != []
    requires h.ws[n + 1].run.fs[k].verdict == Drain && !h.ws[n + 1].run.fs[k].drainConfirmed
    ensures DrainedDuring(h, n, j) && DrainCalled(h, n, j.id)
  {
    DrainIsRecordedOrFailed(s, h, n, k);
    NoCallFails(s, h, n + 1);
    var c: nat :| |h.ws[n].calls| <= c && DrainedFrom(h.ws[n + 1].calls, j, c);
    assert h.ws[n + 1].calls[c + 0] == DrainCall(j.nodes[0], j.id, true);
  }

  lemma CyclesInOrder(t: Thresholds, st: Stream, d: Schedule, i: nat)
    requires t.Valid() && 0 < st.interval && UNSET < st.from && FitsWindow(t, st.interval)
    ensures DrainCycle(t, st.interval, d) < CancelCycle(t, st.interval, d)
    ensures DrainCycle(t, st.interval, d) <= i ==> ConfirmedAt(t, st.interval, i)
    ensures st.Stamp(i) != UNSET
  {
    SpanReached(t.window, st.interval, 0);
    StampOrder(st, 0, i);
  }

  // Before cycle i the job is drained exactly if the draining cycle came earlier.
  lemma DrainedBefore(c: Rules, allowed: set<Signature>, st: Stream, j: Job, sig: Signature, d: Schedule, i: nat)
    requires c.t.Valid() && Steady(c.t, st, j) && Unused(c.t, st, sig) && UNSET < st.from
    requires FitsWindow(c.t, st.interval) && sig in allowed && Scheduled(c.stages, d)
    ensures RungAfter(c, allowed, st, i).drained != UNSET <==> DrainCycle(c.t, st.interval, d) < i
  {
    CyclesInOrder(c.t, st, d, DrainCycle(c.t, st.interval, d));
    if i > 0 {
      UnusedClimbs(c, allowed, st, j, sig, d, i - 1);
    }
  }

  // What turn i finds about an idle job.
  ghost predicate UnusedFinding(t: Thresholds, interval: Duration, d: Schedule, i: nat, f: Finding)
    requires t.Valid() && 0 < interval
  {
    && (!f.verdict.Below(Alert) <==> AlertCycle(t, interval, d) <= i)
    && (!f.verdict.Below(Drain) <==> DrainCycle(t, interval, d) <= i)
    && (f.verdict == Cancel <==> CancelCycle(t, interval, d) <= i)
    && (DrainCycle(t, interval, d) <= i ==> f.drainConfirmed == (DrainCycle(t, interval, d) < i))
  }

  // A job that is steadily idle for K turns from turn b on, in a daemon whose
  // cluster does what it is told.
  ghost predicate UnusedJob(s: Setup, h: History, st: Stream, j: Job, sig: Signature, d: Schedule, b: nat, K: nat) {
    && Apt(s, st, j) && Fed(s, h, st, j, b, K)
    && Unused(s.rules.t, st, sig) && FitsWindow(s.rules.t, st.interval)
    && sig in AllowedIn(h) && Scheduled(s.rules.stages, d)
  }

  // The turn that carries cycle i found what the cycle is to find.
  ghost predicate FoundUnused(s: Setup, h: History, st: Stream, j: Job, d: Schedule, n: nat, i: nat, k: nat)
    requires s.rules.t.Valid() && 0 < st.interval
  {
    && IsHistory(s, h) && n < |h.turns| && FedAt(s, h.turns[n], st, j, i)
    && EvaluatedAt(s, h, n, j, k) && UnusedFinding(s.rules.t, st.interval, d, i, h.ws[n + 1].run.fs[k])
  }

  lemma UnusedIsFound(s: Setup, h: History, st: Stream, j: Job, sig: Signature, d: Schedule, b: nat, K: nat, i: nat) returns (who: Job, k: nat)
    requires UnusedJob(s, h, st, j, sig, d, b, K) && i < K
    ensures Alike(s.rules, who, j) && FoundUnused(s, h, st, who, d, b + i, i, k)
  {
    var c, allowed := s.rules, AllowedIn(h);
    StandsAfter(s, h, st, j, b, K, i);
    who, k := FedTurnClimbs(s, h, st, j, b, K, i);
    UnusedClimbs(c, allowed, st, j, sig, d, i);
    DrainedBefore(c, allowed, st, j, sig, d, i);
    CyclesInOrder(c.t, st, d, i);
  }

  lemma UnusedIsDrained(s: Setup, h: History, st: Stream, j: Job, d: Schedule, n: nat, i: nat, k: nat)
    requires Apt(s, st, j) && FitsWindow(s.rules.t, st.interval) && FoundUnused(s, h, st, j, d, n, i, k)
    requires s.wiring.live && s.wiring.enforce
    ensures DrainCalled(h, n, j.id) <==> i == DrainCycle(s.rules.t, st.interval, d)
    ensures i == DrainCycle(s.rules.t, st.interval, d) ==> DrainedDuring(h, n, j)
  {
    CyclesInOrder(s.rules.t, st, d, i);
    if DrainCalled(h, n, j.id) {
      var call :| |h.ws[n].calls| <= call < |h.ws[n + 1].calls| && h.ws[n + 1].calls[call].DrainCall? && h.ws[n + 1].calls[call].job == j.id;
      CallAnswers(s, h, n, j, k, call);
    }
    if i == DrainCycle(s.rules.t, st.interval, d) {
      DrainIsCalled(s, h, n, j, k);
    }
  }

  lemma UnusedIsCancelled(s: Setup, h: History, st: Stream, j: Job, d: Schedule, n: nat, i: nat, k: nat)
    requires Apt(s, st, j) && FoundUnused(s, h, st, j, d, n, i, k) && s.wiring.live && s.wiring.enforce
    ensures CancelCalled(h, n, j.id) <==> CancelCycle(s.rules.t, st.interval, d) <= i
  {
    if CancelCalled(h, n, j.id) {
      var call :| |h.ws[n].calls| <= call < |h.ws[n + 1].calls| && h.ws[n + 1].calls[call].CancelCall? && h.ws[n + 1].calls[call].job == j.id;
      CallAnswers(s, h, n, j, k, call);
    }
    if CancelCycle(s.rules.t, st.interval, d) <= i {
      CancelIsCalled(s, h, n, j, k);
    }
  }

  // A job of which nothing is kept when it becomes steadily idle or hung, at
  // whatever turn b that is, in a daemon none of whose calls fails: its verdict
  // reaches Alert, Drain and Cancel exactly at these cycles.
  lemma UnusedJobIsFound(s: Setup, h: History, st: Stream, j: Job, sig: Signature, d: Schedule, b: nat, K: nat, i: nat)
    returns (who: Job, k: nat)
    requires UnusedJob(s, h, st, j, sig, d, b, K) && i < K
    ensures Alike(s.rules, who, j) && EvaluatedAt(s, h, b + i, who, k)
    ensures UnusedFinding(s.rules.t, st.interval, d, i, h.ws[b + i + 1].run.fs[k])
  {
    who, k := UnusedIsFound(s, h, st, j, sig, d, b, K, i);
  }

  // In enforce mode its nodes are drained in one turn and no other, and it is
  // cancelled in every turn from the cancelling one on and in none before.
  lemma UnusedJobIsCancelled(s: Setup, h: History, st: Stream, j: Job, sig: Signature, d: Schedule, b: nat, K: nat, i: nat)
    returns (who: Job, k: nat)
    requires UnusedJob(s, h, st, j, sig, d, b, K) && i < K && s.wiring.live && s.wiring.enforce
    ensures Alike(s.rules, who, j) && EvaluatedAt(s, h, b + i, who, k)
    ensures UnusedFinding(s.rules.t, st.interval, d, i, h.ws[b + i + 1].run.fs[k])
    ensures DrainCalled(h, b + i, j.id) <==> i == DrainCycle(s.rules.t, st.interval, d)
    ensures i == DrainCycle(s.rules.t, st.interval, d) ==> DrainedDuring(h, b + i, who)
    ensures CancelCalled(h, b + i, j.id) <==> CancelCycle(s.rules.t, st.interval, d) <= i
  {
    who, k := UnusedIsFound(s, h, st, j, sig, d, b, K, i);
    AlikeApt(s, st, j, who);
    UnusedIsDrained(s, h, st, who, d, b + i, i, k);
    UnusedIsCancelled(s, h, st, who, d, b + i, i, k);
  }

  // In observe mode it is found at the same cycles, and nothing is called at all.
  lemma UnusedJobIsObserved(s: Setup, h: History, st: Stream, j: Job, sig: Signature, d: Schedule, b: nat, K: nat, i: nat)
    returns (who: Job, k: nat)
    requires s.rules.t.Valid() && Steady(s.rules.t, st, j) && st.interval < s.rules.t.maxSampleGap && UNSET < st.from
    requires !s.rules.exempt(j) && !s.wiring.enforce && Fed(s, h, st, j, b, K)
    requires Unused(s.rules.t, st, sig) && FitsWindow(s.rules.t, st.interval) && sig in AllowedIn(h) && Scheduled(s.rules.stages, d)
    requires i < K
    ensures Alike(s.rules, who, j) && EvaluatedAt(s, h, b + i, who, k)
    ensures UnusedFinding(s.rules.t, st.interval, d, i, h.ws[b + i + 1].run.fs[k])
    ensures h.ws[b + i + 1].calls == []
  {
    who, k := UnusedIsFound(s, h, st, j, sig, d, b, K, i);
    ObserveModeTouchesNothing(s, h, b + i + 1);
  }

  // ---- Until then nothing is kept of the job ----

  // Whatever the turn delivers to this incarnation of the job, none of it counts.
  // There is no delivery at all if the job is not listed, not in scope or not
  // judged, or if the cycle fails.
  ghost predicate QuietFor(s: Setup, turn: Turn, j: Job) {
    forall k :: JudgedIn(s, turn, k) && k.id == j.id && k.startTime == j.startTime ==>
      Admitted(s.rules.t, j.startTime, OnNodes(SamplesOf(s, turn), k.nodes)) == []
  }

  lemma NoneAdmitted(t: Thresholds, start: Time, samples: seq<Sample>)
    requires forall x :: x in samples ==> x.timestamp < start + t.warmup
    ensures Admitted(t, start, samples) == []
  {
    SinceNone(samples, start + t.warmup);
  }

  lemma EarlyIsQuiet(t: Thresholds, start: Time, samples: seq<Sample>, nodes: seq<string>)
    requires forall x :: x in samples ==> x.timestamp < start + t.warmup
    ensures Admitted(t, start, OnNodes(samples, nodes)) == []
  {
    OnNodesMembers(samples, nodes);
    NoneAdmitted(t, start, OnNodes(samples, nodes));
  }

  // In particular, it is quiet in a job's warmup, if no stamp is from the future.
  lemma WarmupIsQuiet(s: Setup, turn: Turn, j: Job)
    requires turn.now < j.startTime + s.rules.t.warmup
    requires Succeeds(s, turn) ==> forall x :: x in SamplesOf(s, turn) ==> x.timestamp <= turn.now
    ensures QuietFor(s, turn, j)
  {
    forall k | JudgedIn(s, turn, k) && k.id == j.id && k.startTime == j.startTime
      ensures Admitted(s.rules.t, j.startTime, OnNodes(SamplesOf(s, turn), k.nodes)) == []
    {
      EarlyIsQuiet(s.rules.t, j.startTime, SamplesOf(s, turn), k.nodes);
    }
  }

  lemma NextUnheard(c: Rules, m: Memory, op: Op, j: Job)
    requires Unheard(m, j)
    requires Delivers(op, j.id, j.startTime) ==> Admitted(c.t, j.startTime, op.samples) == []
    ensures Unheard(Next(c, m, op), j)
  {
    if op.Observing? {
      assert Since([], op.now - c.t.window) == [];
    }
  }

  lemma {:induction false} RunUnheard(c: Rules, run: Run, a: nat, b: nat, j: Job)
    requires IsRun(c, run) && a <= b <= |run.ops| && Unheard(run.ms[a], j)
    requires forall i :: a <= i < b && Delivers(run.ops[i], j.id, j.startTime) ==> Admitted(c.t, j.startTime, run.ops[i].samples) == []
    ensures Unheard(run.ms[b], j)
  {
    if a < b {
      RunUnheard(c, run, a, b - 1, j);
      assert Stepped(c, run, b - 1);
      NextUnheard(c, run.ms[b - 1], run.ops[b - 1], j);
    }
  }

  lemma TurnUnheard(s: Setup, h: History, n: nat, j: Job)
    requires IsHistory(s, h) && n < |h.turns| && QuietFor(s, h.turns[n], j)
    requires Started(h.ws[n].run) && Unheard(Last(h.ws[n].run), j)
    ensures Started(h.ws[n + 1].run) && Unheard(Last(h.ws[n + 1].run), j)
  {
    HistoryGrows(s, h, n, n + 1);
    var a, run := |h.ws[n].run.ops|, h.ws[n + 1].run;
    forall i | a <= i < |run.ops| && Delivers(run.ops[i], j.id, j.startTime)
      ensures Admitted(s.rules.t, j.startTime, run.ops[i].samples) == []
    {
      OpOrigin(s, h, n, i);
      assert JudgedIn(s, h.turns[n], run.ops[i].j);
    }
    RunUnheard(s.rules, run, a, |run.ops|, j);
  }

  // As long as turns are quiet for a job of which nothing is kept, nothing is kept
  // of it. That is so of every job before the first turn.
  lemma {:induction false} NothingIsKept(s: Setup, h: History, a: nat, b: nat, j: Job)
    requires IsHistory(s, h) && a <= b <= |h.turns|
    requires a == 0 || (Started(h.ws[a].run) && Unheard(Last(h.ws[a].run), j))
    requires forall n :: a <= n < b ==> QuietFor(s, h.turns[n], j)
    ensures Started(h.ws[b].run) && Unheard(Last(h.ws[b].run), j)
  {
    if a < b {
      NothingIsKept(s, h, a, b - 1, j);
      TurnUnheard(s, h, b - 1, j);
    }
  }

  // ---- Such histories exist ----

  // Nothing but the job is listed, and the samples are the stream's.
  function SoleTurn(st: Stream, j: Job, i: nat): Turn {
    Turn(Listed([j]), _ => Scraped(st.snapshot(i)), st.Stamp(i))
  }

  ghost predicate Attributable(s: Setup, st: Stream, j: Job) {
    Considered(s, j) && forall i: nat {:trigger st.snapshot(i)} ::
      FateOf([j], st.snapshot(i), j) == Judged && OnNodes(st.snapshot(i), j.nodes) == st.snapshot(i)
  }

  lemma SoleTurnFeeds(s: Setup, st: Stream, j: Job, i: nat)
    requires Attributable(s, st, j)
    ensures FedAt(s, SoleTurn(st, j, i), st, j, i)
  {
    ScopeIsListed(s, [j]);
    assert SamplesOf(s, SoleTurn(st, j, i)) == st.snapshot(i);
  }

  lemma OneMoreTurn(s: Setup, h: History, turn: Turn) returns (longer: History)
    requires IsHistory(s, h)
    ensures IsHistory(s, longer) && longer.sigs == h.sigs && longer.turns == h.turns + [turn] && h.ws <= longer.ws
  {
    HistoryGrows(s, h, |h.turns|, |h.turns|);
    HistoryContinues(s, h, turn);
    longer := History(h.sigs, h.turns + [turn], h.ws + [Turned(s, h.ws[|h.turns|], turn)]);
  }

  lemma OneMoreFed(s: Setup, shorter: History, h: History, st: Stream, j: Job, b: nat, K: nat, i: nat)
    requires Attributable(s, st, j) && |shorter.turns| == b + K && h.turns == shorter.turns + [SoleTurn(st, j, K)] && i <= K
    requires i < K ==> FedBy(s, shorter, st, j, b, i)
    ensures FedBy(s, h, st, j, b, i) && FedFrom(s, h, st, j, b, i)
  {
    if i == K {
      SoleTurnFeeds(s, st, j, i);
    }
    assert Alike(s.rules, j, j);
  }

  // Any history that has kept nothing of the job goes on like that for K turns.
  lemma {:induction false} FedHistoryExists(s: Setup, before: History, st: Stream, j: Job, K: nat) returns (h: History)
    requires IsHistory(s, before) && Attributable(s, st, j)
    requires Started(before.ws[|before.turns|].run) && Unheard(Last(before.ws[|before.turns|].run), j)
    ensures Fed(s, h, st, j, |before.turns|, K) && |h.turns| == |before.turns| + K
    ensures forall i {:trigger FedBy(s, h, st, j, |before.turns|, i)} :: 0 <= i < K ==> FedBy(s, h, st, j, |before.turns|, i)
    ensures h.sigs == before.sigs && before.turns <= h.turns
  {
    var b := |before.turns|;
    if K == 0 {
      h := before;
    } else {
      var shorter := FedHistoryExists(s, before, st, j, K - 1);
      h := OneMoreTurn(s, shorter, SoleTurn(st, j, K - 1));
      forall i | 0 <= i < K ensures FedBy(s, h, st, j, b, i) && FedFrom(s, h, st, j, b, i) {
        OneMoreFed(s, shorter, h, st, j, b, K - 1, i);
      }
    }
  }

  // The daemon before its first turn.
  function Newborn(s: Setup, sigs: seq<Signature>): History {
    History(sigs, [], [World(Did(s.rules, NOTHING, Allowing(sigs)), [])])
  }

  lemma NewbornKeepsNothing(s: Setup, sigs: seq<Signature>, j: Job)
    ensures IsHistory(s, Newborn(s, sigs)) && Unheard(Last(Newborn(s, sigs).ws[0].run), j)
  {
  }

  lemma LaunchedHistory(s: Setup, st: Stream, j: Job, sigs: seq<Signature>, K: nat) returns (h: History)
    requires Attributable(s, st, j)
    ensures Fed(s, h, st, j, 0, K) && |h.turns| == K && h.sigs == sigs
  {
    NewbornKeepsNothing(s, sigs, j);
    h := FedHistoryExists(s, Newborn(s, sigs), st, j, K);
  }

  // ---- Accepted configurations ----

  // Stages in step of which one that counts cancels call for everything in time.
  lemma ScheduleExists(stages: seq<Stage>, i: nat) returns (d: Schedule)
    requires Stages.InStep(stages) && i < |stages| && Stages.Counts(stages, i) && stages[i].verdict == Cancel
    ensures Scheduled(Stages.Sorted(stages), d)
  {
    var alert := Stages.CallsFromSomeDwell(stages, Alert, i);
    var drain := Stages.CallsFromSomeDwell(stages, Drain, i);
    var cancel := Stages.CallsFromSomeDwell(stages, Cancel, i);
    d := Schedule(alert, drain, cancel);
  }

  // The configuration lists the signature.
  predicate Lists(names: seq<string>, sig: Signature) {
    (sig == Idle && "idle" in names) || (sig == Hung && "hung" in names)
  }

  lemma ListedIsAllowed(names: seq<string>, h: History, sig: Signature)
    requires h.sigs == Config.Signatures(names) && Lists(names, sig) && forall x :: x in names ==> x == "idle" || x == "hung"
    ensures sig in AllowedIn(h)
  {
    Config.CancelsWhatIsListed(names);
  }

  lemma CancelsFirst(s: Setup, h: History, st: Stream, j: Job, sig: Signature, d: Schedule, x: nat)
    requires UnusedJob(s, h, st, j, sig, d, 0, x + 1) && x == CancelCycle(s.rules.t, st.interval, d) && s.wiring.live && s.wiring.enforce
    ensures CancelCalled(h, x, j.id) && forall m :: 0 <= m < x ==> !CancelCalled(h, m, j.id)
  {
    forall m | 0 <= m <= x ensures CancelCalled(h, m, j.id) <==> m == x {
      var who, k := UnusedJobIsCancelled(s, h, st, j, sig, d, 0, x + 1, m);
    }
  }

  // A daemon launched in enforce mode from an accepted configuration whose stages
  // are in step and end in a cancellation, and whose sample count fits the
  // window, does cancel a job that is idle or hung, as the configuration lists:
  // there is a history in which it first does so in the turn that the settings say.
  // So does a daemon for a single node, for the jobs on that node.
  lemma AcceptedConfigurationCancels(settings: Config.Settings, exempt: Job -> bool, answers: nat -> bool, perNode: bool, localNode: string,
                                     st: Stream, j: Job, sig: Signature, i: nat) returns (d: Schedule, h: History)
    requires Config.Acceptable(settings) && settings.enforce && Lists(settings.allowCancel, sig)
    requires st.interval == settings.interval && FitsWindow(settings.thresholds, settings.interval)
    requires var stages := Config.Effective(settings).value;
      Stages.InStep(stages) && i < |stages| && Stages.Counts(stages, i) && stages[i].verdict == Cancel
    requires (forall n: nat :: answers(n)) && !exempt(j) && UNSET < st.from
    requires Steady(settings.thresholds, st, j) && Unused(settings.thresholds, st, sig)
    requires Attributable(Startup.Arranged(settings, exempt, answers, perNode, localNode), st, j)
    ensures Scheduled(Config.RulesOf(settings, exempt).stages, d)
    ensures IsHistory(Startup.Arranged(settings, exempt, answers, perNode, localNode), h) && h.sigs == Config.Signatures(settings.allowCancel)
    ensures var x := CancelCycle(settings.thresholds, settings.interval, d);
      && x < |h.turns| && CancelCalled(h, x, j.id)
      && forall m :: 0 <= m < x ==> !CancelCalled(h, m, j.id)
  {
    var s := Startup.Arranged(settings, exempt, answers, perNode, localNode);
    d := ScheduleExists(Config.Effective(settings).value, i);
    AcceptableTiming(settings);
    var x := CancelCycle(settings.thresholds, settings.interval, d);
    h := LaunchedHistory(s, st, j, Config.Signatures(settings.allowCancel), x + 1);
    ListedIsAllowed(settings.allowCancel, h, sig);
    CancelsFirst(s, h, st, j, sig, d, x);
  }
}
