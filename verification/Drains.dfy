// What a turn leaves behind: no memory of a job that was not judged, and one
// drain for each breach.
module Drains {
  import opened Telemetry
  import opened Policy
  import opened Runs
  import opened Ladder
  import opened Actions
  import opened Daemon
  import opened Safety
  import Isolation

  lemma SameListing(s: Setup, turn: Turn, j: Job, k: Job)
    requires turn.listing.Listed? && Distinct(turn.listing.jobs)
    requires JudgedIn(s, turn, j) && k in turn.listing.jobs && j.id == k.id
    ensures j == k
  {
    ScopeIsListed(s, turn.listing.jobs);
    var a :| 0 <= a < |turn.listing.jobs| && turn.listing.jobs[a] == j;
    var b :| 0 <= b < |turn.listing.jobs| && turn.listing.jobs[b] == k;
  }

  // ---- A job that is not judged leaves nothing behind ----

  ghost predicate NeverObserved(ops: seq<Op>, from: nat, id: string) {
    forall i :: from <= i < |ops| ==> !(ops[i].Observing? && ops[i].j.id == id)
  }

  lemma {:induction false} StaysAbsent(c: Rules, run: Run, a: nat, b: nat, id: string)
    requires IsRun(c, run) && a <= b <= |run.ops| && id !in run.ms[a].jobs
    requires NeverObserved(run.ops, a, id)
    ensures id !in run.ms[b].jobs
  {
    if a < b {
      StaysAbsent(c, run, a, b - 1, id);
      assert Stepped(c, run, b - 1);
    }
  }

  lemma {:induction false} Dropped(jobs: seq<Job>, samples: seq<Sample>, scope: seq<Job>, now: Time, j: Job) returns (k: nat)
    requires j in scope && FateOf(jobs, samples, j) != Judged
    ensures k < |SettleOps(jobs, samples, scope, now)| && SettleOps(jobs, samples, scope, now)[k] == Dropping(j.id)
  {
    var rest := scope[..|scope| - 1];
    assert scope == rest + [scope[|scope| - 1]];
    if j in rest {
      k := Dropped(jobs, samples, rest, now, j);
    } else {
      k := |SettleOps(jobs, samples, rest, now)|;
    }
  }

  // What the engine was told about the jobs, in the order in which it was told.
  lemma SettledTail(s: Setup, w: World, jobs: seq<Job>, samples: seq<Sample>, now: Time, settled: Run, w': World)
    requires Halves(s, w, jobs, samples, now, settled, w')
    ensures |w.run.ops| < |settled.ops| && settled.ops[|w.run.ops| + 1..] == SettleOps(jobs, samples, InScope(s, jobs), now)
    ensures settled.ops <= w'.run.ops
  {
  }

  // The turn has no business remembering a job of this ID: none is listed, or
  // the one that is was not judged.
  ghost predicate Passed(s: Setup, turn: Turn, id: string)
    requires turn.listing.Listed?
  {
    forall j :: j in turn.listing.jobs && j.id == id ==> Succeeds(s, turn) && Considered(s, j) && !JudgedIn(s, turn, j)
  }

  // The operation of a turn that erased the record of such a job.
  lemma Eraser(s: Setup, h: History, n: nat, id: string) returns (k: nat)
    requires IsHistory(s, h) && n < |h.turns| && h.turns[n].listing.Listed? && Passed(s, h.turns[n], id)
    ensures var run := h.ws[n + 1].run;
      |h.ws[n].run.ops| <= k < |run.ops| && |run.ms| == |run.ops| + 1 && id !in run.ms[k + 1].jobs
  {
    HistoryGrows(s, h, n, n + 1);
    var w, turn, run := h.ws[n], h.turns[n], h.ws[n + 1].run;
    k := |w.run.ops|;
    if j :| j in turn.listing.jobs && j.id == id {
      k := DroppedAt(s, h, n, j);
    } else {
      OpOfForgetting(s, h, n);
    }
    assert Stepped(s.rules, run, k);
  }

  lemma OpOfForgetting(s: Setup, h: History, n: nat)
    requires IsHistory(s, h) && n < |h.turns| && h.turns[n].listing.Listed?
    ensures var base, ops := |h.ws[n].run.ops|, h.ws[n + 1].run.ops;
      base < |ops| && ops[base] == Forgetting(Active(h.turns[n].listing.jobs))
  {
    HistoryGrows(s, h, n, n);
    assert TurnedAt(s, h, n);
    var samples, settled := TurnHalves(s, h.ws[n], h.turns[n]);
    if Succeeds(s, h.turns[n]) {
      assert settled.ops[|h.ws[n].run.ops|] == SettledOps(s, h.turns[n].listing.jobs, samples, h.turns[n].now)[0];
    }
  }

  lemma DroppedIn(s: Setup, w: World, jobs: seq<Job>, samples: seq<Sample>, now: Time, settled: Run, w': World, j: Job) returns (k: nat)
    requires Halves(s, w, jobs, samples, now, settled, w') && j in InScope(s, jobs) && FateOf(jobs, samples, j) != Judged
    ensures |w.run.ops| <= k < |w'.run.ops| && w'.run.ops[k] == Dropping(j.id)
  {
    var d := Dropped(jobs, samples, InScope(s, jobs), now, j);
    SettledTail(s, w, jobs, samples, now, settled, w');
    k := |w.run.ops| + 1 + d;
    assert settled.ops[|w.run.ops| + 1..][d] == settled.ops[k];
  }

  lemma DroppedAt(s: Setup, h: History, n: nat, j: Job) returns (k: nat)
    requires IsHistory(s, h) && n < |h.turns| && Succeeds(s, h.turns[n])
    requires j in h.turns[n].listing.jobs && Considered(s, j) && !JudgedIn(s, h.turns[n], j)
    ensures |h.ws[n].run.ops| <= k < |h.ws[n + 1].run.ops| && h.ws[n + 1].run.ops[k] == Dropping(j.id)
  {
    HistoryGrows(s, h, n, n);
    assert TurnedAt(s, h, n);
    var turn := h.turns[n];
    ScopeIsListed(s, turn.listing.jobs);
    var samples, settled := TurnHalves(s, h.ws[n], turn);
    k := DroppedIn(s, h.ws[n], turn.listing.jobs, samples, turn.now, settled, h.ws[n + 1], j);
  }

  lemma PassedIsNotObserved(s: Setup, h: History, n: nat, id: string, from: nat)
    requires IsHistory(s, h) && n < |h.turns| && h.turns[n].listing.Listed?
    requires |h.ws[n].run.ops| <= from && Passed(s, h.turns[n], id)
    ensures NeverObserved(h.ws[n + 1].run.ops, from, id)
  {
    var ops := h.ws[n + 1].run.ops;
    ScopeIsListed(s, h.turns[n].listing.jobs);
    forall i | from <= i < |ops| ensures !(ops[i].Observing? && ops[i].j.id == id) {
      OpOrigin(s, h, n, i);
    }
  }

  // What no turn has business remembering is not remembered: jobs no longer
  // listed, and every job in scope that was not judged.
  lemma PassedIsForgotten(s: Setup, h: History, n: nat, id: string)
    requires IsHistory(s, h) && n < |h.turns| && h.turns[n].listing.Listed? && Passed(s, h.turns[n], id)
    ensures Started(h.ws[n + 1].run) && id !in Last(h.ws[n + 1].run).jobs
  {
    var run := h.ws[n + 1].run;
    HistoryGrows(s, h, n, n + 1);
    var k := Eraser(s, h, n, id);
    PassedIsNotObserved(s, h, n, id, k + 1);
    StaysAbsent(s.rules, run, k + 1, |run.ops|, id);
  }

  // When no job is listed twice, that is exactly so for each job in scope that
  // met any fate but being judged.
  lemma OnlyJudgedJobsAreRemembered(s: Setup, h: History, n: nat, j: Job)
    requires IsHistory(s, h) && n < |h.turns| && Succeeds(s, h.turns[n]) && Distinct(h.turns[n].listing.jobs)
    requires j in InScope(s, h.turns[n].listing.jobs) && FateOf(h.turns[n].listing.jobs, SamplesOf(s, h.turns[n]), j) != Judged
    ensures Started(h.ws[n + 1].run) && j.id !in Last(h.ws[n + 1].run).jobs
  {
    var turn := h.turns[n];
    ScopeIsListed(s, turn.listing.jobs);
    forall k | k in turn.listing.jobs && k.id == j.id ensures k == j {
      var a :| 0 <= a < |turn.listing.jobs| && turn.listing.jobs[a] == j;
      var b :| 0 <= b < |turn.listing.jobs| && turn.listing.jobs[b] == k;
    }
    PassedIsForgotten(s, h, n, j.id);
  }

  // ---- A drain is not repeated ----

  // A drain is only ever issued for a record that does not say drained.
  lemma NotDrainedInside(s: Setup, h: History, n: nat, id: string, start: Time, D: Time, i: nat) returns (k: nat)
    requires IsHistory(s, h) && n < |h.turns| && |h.ws[n].calls| <= i < |h.ws[n + 1].calls|
    requires h.ws[n + 1].calls[i].DrainCall? && h.ws[n + 1].calls[i].job == id
    ensures var run := h.ws[n + 1].run;
      |h.ws[n].run.ops| < k < |run.ops| && |run.ms| == |run.ops| + 1 && !DrainedAt(run.ms[k], id, start, D)
  {
    k := CallOrigin(s, h, n, i);
    HistoryGrows(s, h, n, n + 1);
    FindingIsAbout(s.rules, h.ws[n + 1].run, k);
  }

  // The record of this incarnation is gone, replaced or empty.
  ghost predicate Wiped(m: Memory, id: string, start: Time) {
    !Holds(m, id, start) || Blank(m.jobs[id])
  }

  // A confirmation is only ever lost with the whole record.
  lemma {:induction false} ConfirmationLost(c: Rules, run: Run, a: nat, b: nat, id: string, start: Time, D: Time) returns (x: nat)
    requires IsRun(c, run) && a <= b <= |run.ops|
    requires DrainedAt(run.ms[a], id, start, D) && !DrainedAt(run.ms[b], id, start, D)
    ensures a < x <= b && Wiped(run.ms[x], id, start)
  {
    if DrainedAt(run.ms[b - 1], id, start, D) {
      x := b;
      if Holds(run.ms[b], id, start) {
        StepMoves(c, run, b - 1, id, start);
      }
    } else {
      x := ConfirmationLost(c, run, a, b - 1, id, start, D);
    }
  }

  // One drain for each breach, over a whole history: if the record said before
  // turn m that the nodes of this incarnation were drained, and turn m or a later
  // one drains the job again, then in between the record was wiped or replaced.
  lemma NoSecondDrain(s: Setup, h: History, m: nat, n: nat, id: string, start: Time, D: Time, i: nat) returns (x: nat)
    requires IsHistory(s, h) && m <= n < |h.turns| && |h.ws[n].calls| <= i < |h.ws[n + 1].calls|
    requires Started(h.ws[m].run) && DrainedAt(Last(h.ws[m].run), id, start, D)
    requires h.ws[n + 1].calls[i].DrainCall? && h.ws[n + 1].calls[i].job == id
    ensures var run := h.ws[n + 1].run;
      |h.ws[m].run.ops| < x < |run.ops| && |run.ms| == |run.ops| + 1 && Wiped(run.ms[x], id, start)
  {
    var k := NotDrainedInside(s, h, n, id, start, D, i);
    HistoryGrows(s, h, m, n);
    HistoryGrows(s, h, m, n + 1);
    assert h.ws[n + 1].run.ms[|h.ws[m].run.ops|] == Last(h.ws[m].run);
    x := ConfirmationLost(s.rules, h.ws[n + 1].run, |h.ws[m].run.ops|, k, id, start, D);
  }

  // ---- A drain that was asked for ----

  // The drain of one finding was carried out and is to be confirmed, or one of
  // its calls failed.
  lemma {:induction false} ActAnswers(w: Wiring, calls: seq<Call>, findings: seq<Finding>, now: Time, f: Finding)
    requires w.live && w.enforce && f in findings && f.verdict == Drain && !f.drainConfirmed
    ensures var done := Act(w, calls, findings, now);
      Confirming(f.job, now) in done.confirms || DrainFailed(done.calls, |calls|, f.job.id)
  {
    var rest, last := findings[..|findings| - 1], findings[|findings| - 1];
    assert findings == rest + [last];
    var before, done := Act(w, calls, rest, now), Act(w, calls, findings, now);
    ActSends(w, calls, rest, now);
    HandleSends(w, before.calls, last);
    if last == f {
      var made := done.calls[|before.calls|..];
      assert made != [] ==> done.calls[|done.calls| - 1] == made[|made| - 1];
    } else {
      ActAnswers(w, calls, rest, now, f);
      if DrainFailed(before.calls, |calls|, f.job.id) {
        var i :| |calls| <= i < |before.calls| && before.calls[i].DrainCall? && before.calls[i].job == f.job.id && !before.calls[i].ok;
        assert done.calls[i] == before.calls[i];
      }
    }
  }

  ghost predicate DrainFailed(calls: seq<Call>, base: nat, job: string) {
    exists i :: base <= i < |calls| && calls[i].DrainCall? && calls[i].job == job && !calls[i].ok
  }

  // In one turn the engine hears of a job once.
  lemma {:induction false} SettledOnce(jobs: seq<Job>, samples: seq<Sample>, scope: seq<Job>, now: Time, a: nat, b: nat, id: string)
    requires Distinct(scope) && a < b < |SettleOps(jobs, samples, scope, now)|
    requires var ops := SettleOps(jobs, samples, scope, now); Isolation.Concerns(ops[a], id) && Isolation.Concerns(ops[b], id)
    ensures b == a + 1 && SettleOps(jobs, samples, scope, now)[b].Evaluating?
  {
    var n := |scope| - 1;
    var rest := SettleOps(jobs, samples, scope[..n], now);
    SettleOpsShape(jobs, samples, scope, now, a);
    SettleOpsShape(jobs, samples, scope, now, b);
    if b < |rest| {
      SettledOnce(jobs, samples, scope[..n], now, a, b, id);
    } else if a < |rest| {
      SettleOpsShape(jobs, samples, scope[..n], now, a);
      LastIsDistinct(scope);
    }
  }

  lemma LastIsDistinct(jobs: seq<Job>)
    requires Distinct(jobs) && jobs != []
    ensures forall j :: j in jobs[..|jobs| - 1] ==> j.id != jobs[|jobs| - 1].id
  {
  }

  lemma {:induction false} ScopeIsDistinct(s: Setup, jobs: seq<Job>)
    requires Distinct(jobs)
    ensures Distinct(InScope(s, jobs))
  {
    if jobs != [] {
      var rest := jobs[..|jobs| - 1];
      ScopeIsDistinct(s, rest);
      ScopeIsListed(s, rest);
      forall j | j in InScope(s, rest) ensures j.id != jobs[|jobs| - 1].id {
        assert j in rest;
        var a :| 0 <= a < |rest| && rest[a] == j;
      }
    }
  }

  lemma {:induction false} Untouched(c: Rules, run: Run, a: nat, b: nat, id: string)
    requires IsRun(c, run) && a <= b <= |run.ops|
    requires forall i :: a <= i < b ==> !Isolation.Concerns(run.ops[i], id)
    ensures Isolation.Same(run.ms[a], run.ms[b], id)
  {
    if a < b {
      Untouched(c, run, a, b - 1, id);
      assert Stepped(c, run, b - 1);
      Isolation.NextOther(c, run.ms[b - 1], run.ops[b - 1], id);
    }
  }

  ghost predicate OnlyConfirms(ops: seq<Op>, a: nat, b: nat, j: Job, now: Time)
    requires b <= |ops|
  {
    forall i :: a <= i < b ==> ops[i].Confirming? && ops[i].at == now && (ops[i].j.id == j.id ==> ops[i].j == j)
  }

  // Acting on the findings confirms at most the drain of a record at Drain.
  lemma {:induction false} ConfirmsAtMost(c: Rules, run: Run, a: nat, b: nat, j: Job, now: Time)
    requires IsRun(c, run) && a <= b <= |run.ops| && OnlyConfirms(run.ops, a, b, j, now) && now != UNSET
    requires Holds(run.ms[a], j.id, j.startTime)
    ensures Holds(run.ms[b], j.id, j.startTime)
    ensures run.ms[b].jobs[j.id] ==
      if ToBeDrained(run.ms[a], j) && Confirming(j, now) in run.ops[a..b] then run.ms[a].jobs[j.id].(drainConfirmedAt := now)
      else run.ms[a].jobs[j.id]
  {
    if a < b {
      ConfirmsAtMost(c, run, a, b - 1, j, now);
      assert Stepped(c, run, b - 1);
      assert run.ops[a..b] == run.ops[a..b - 1] + [run.ops[b - 1]];
    } else {
      assert run.ops[a..b] == [];
    }
  }

  lemma NotAConfirmation(w: Wiring, calls: seq<Call>, findings: seq<Finding>, now: Time, k: nat)
    requires k < |Act(w, calls, findings, now).confirms|
    ensures Act(w, calls, findings, now).confirms[k].Confirming?
  {
    ActSends(w, calls, findings, now);
    assert ConfirmedFor(w, |calls|, Act(w, calls, findings, now).calls, findings, now, Act(w, calls, findings, now).confirms[k]);
  }

  // An evaluation belongs to the first half of its turn.
  lemma EvaluatedBeforeActing(s: Setup, h: History, n: nat, k: nat) returns (samples: seq<Sample>, settled: Run)
    requires IsHistory(s, h) && n < |h.turns| && |h.ws[n].run.ops| <= k < |h.ws[n + 1].run.ops|
    requires h.ws[n + 1].run.ops[k].Evaluating?
    ensures Succeeds(s, h.turns[n]) && samples == SamplesOf(s, h.turns[n])
    ensures Halves(s, h.ws[n], h.turns[n].listing.jobs, samples, h.turns[n].now, settled, h.ws[n + 1])
    ensures |h.ws[n].run.ops| < k < |settled.ops| && JudgedIn(s, h.turns[n], settled.ops[k].j)
  {
    HistoryGrows(s, h, n, n);
    assert TurnedAt(s, h, n);
    OpOrigin(s, h, n, k);
    samples, settled := TurnHalves(s, h.ws[n], h.turns[n]);
    if |settled.ops| <= k {
      NotAConfirmation(s.wiring, h.ws[n].calls, ReportsSince(settled, |h.ws[n].run.ops|), h.turns[n].now, k - |settled.ops|);
      assert false;
    }
  }

  // After a job is evaluated the engine hears no more of it before the turn acts.
  lemma HeardOnce(jobs: seq<Job>, samples: seq<Sample>, scope: seq<Job>, now: Time, a: nat, b: nat)
    requires Distinct(scope) && a < b < |SettleOps(jobs, samples, scope, now)|
    requires SettleOps(jobs, samples, scope, now)[a].Evaluating?
    ensures var ops := SettleOps(jobs, samples, scope, now); !Isolation.Concerns(ops[b], ops[a].j.id)
  {
    var ops := SettleOps(jobs, samples, scope, now);
    if Isolation.Concerns(ops[b], ops[a].j.id) {
      SettledOnce(jobs, samples, scope, now, a, b, ops[a].j.id);
      SettleOpsShape(jobs, samples, scope, now, b);
      assert false;
    }
  }

  lemma NothingMore(jobs: seq<Job>, samples: seq<Sample>, scope: seq<Job>, now: Time, ops: seq<Op>, base: nat, k: nat)
    requires Distinct(scope) && base <= k < |ops| && ops[base..] == SettleOps(jobs, samples, scope, now)
    requires ops[k].Evaluating?
    ensures forall i :: k + 1 <= i < |ops| ==> !Isolation.Concerns(ops[i], ops[k].j.id)
  {
    var tail := ops[base..];
    assert tail[k - base] == ops[k];
    forall i | k + 1 <= i < |ops| ensures !Isolation.Concerns(ops[i], ops[k].j.id) {
      assert tail[i - base] == ops[i];
      HeardOnce(jobs, samples, scope, now, k - base, i - base);
    }
  }

  ghost predicate ToBeDrained(m: Memory, j: Job) {
    Holds(m, j.id, j.startTime) && m.jobs[j.id].lastVerdict == Drain && m.jobs[j.id].drainConfirmedAt == UNSET
  }

  lemma FoundAtDrain(c: Rules, run: Run, k: nat)
    requires IsRun(c, run) && k < |run.ops| && run.ops[k].Evaluating? && run.fs[k].verdict == Drain && !run.fs[k].drainConfirmed
    ensures ToBeDrained(run.ms[k + 1], run.ops[k].j)
  {
    FindingIsAbout(c, run, k);
    assert Stepped(c, run, k);
    JudgeMoves(c, run.ms[k].cancellable, RecordFor(run.ms[k], run.ops[k].j), run.ops[k].j, run.ops[k].now);
  }

  // Between its evaluation and the acting, nothing touches the record.
  lemma KeptUntilActing(s: Setup, w: World, jobs: seq<Job>, samples: seq<Sample>, now: Time, settled: Run, w': World, k: nat)
    requires Halves(s, w, jobs, samples, now, settled, w') && Distinct(jobs)
    requires |w.run.ops| < k < |settled.ops| && settled.ops[k].Evaluating?
    ensures Isolation.Same(settled.ms[k + 1], Last(settled), settled.ops[k].j.id)
  {
    var id := settled.ops[k].j.id;
    assert forall i :: k + 1 <= i < |settled.ops| ==> !Isolation.Concerns(settled.ops[i], id) by {
      ScopeIsDistinct(s, jobs);
      SettledTail(s, w, jobs, samples, now, settled, w');
      NothingMore(jobs, samples, InScope(s, jobs), now, settled.ops, |w.run.ops| + 1, k);
    }
    Untouched(s.rules, settled, k + 1, |settled.ops|, id);
  }

  // The record of a job found at Drain, when the turn begins to act.
  lemma StillToBeDrained(s: Setup, w: World, jobs: seq<Job>, samples: seq<Sample>, now: Time, settled: Run, w': World, k: nat)
    requires Halves(s, w, jobs, samples, now, settled, w') && Distinct(jobs)
    requires |w.run.ops| < k < |settled.ops| && settled.ops[k].Evaluating?
    requires settled.fs[k].verdict == Drain && !settled.fs[k].drainConfirmed
    ensures ToBeDrained(Last(settled), settled.ops[k].j)
  {
    var j := settled.ops[k].j;
    KeptUntilActing(s, w, jobs, samples, now, settled, w', k);
    assert ToBeDrained(settled.ms[k + 1], j) by {
      FoundAtDrain(s.rules, settled, k);
    }
  }

  lemma ActingConfirms(s: Setup, h: History, n: nat, samples: seq<Sample>, settled: Run, j: Job)
    requires IsHistory(s, h) && n < |h.turns| && Succeeds(s, h.turns[n]) && samples == SamplesOf(s, h.turns[n])
    requires Halves(s, h.ws[n], h.turns[n].listing.jobs, samples, h.turns[n].now, settled, h.ws[n + 1])
    requires Distinct(h.turns[n].listing.jobs) && JudgedIn(s, h.turns[n], j)
    ensures OnlyConfirms(h.ws[n + 1].run.ops, |settled.ops|, |h.ws[n + 1].run.ops|, j, h.turns[n].now)
  {
    var ops := h.ws[n + 1].run.ops;
    forall i | |settled.ops| <= i < |ops| ensures ops[i].Confirming? && ops[i].at == h.turns[n].now && (ops[i].j.id == j.id ==> ops[i].j == j) {
      ActingConfirm(s, h, n, samples, settled, j, i);
    }
  }

  lemma ActingConfirm(s: Setup, h: History, n: nat, samples: seq<Sample>, settled: Run, j: Job, i: nat)
    requires IsHistory(s, h) && n < |h.turns| && Succeeds(s, h.turns[n]) && samples == SamplesOf(s, h.turns[n])
    requires Halves(s, h.ws[n], h.turns[n].listing.jobs, samples, h.turns[n].now, settled, h.ws[n + 1])
    requires Distinct(h.turns[n].listing.jobs) && JudgedIn(s, h.turns[n], j) && |settled.ops| <= i < |h.ws[n + 1].run.ops|
    ensures var op := h.ws[n + 1].run.ops[i];
      op.Confirming? && op.at == h.turns[n].now && (op.j.id == j.id ==> op.j == j)
  {
    var op := h.ws[n + 1].run.ops[i];
    NotAConfirmation(s.wiring, h.ws[n].calls, ReportsSince(settled, |h.ws[n].run.ops|), h.turns[n].now, i - |settled.ops|);
    ConfirmOrigin(s, h, n, i, samples, settled);
    if op.j.id == j.id {
      ScopeIsListed(s, h.turns[n].listing.jobs);
      SameListing(s, h.turns[n], j, op.j);
    }
  }

  // Acting records the drain of a record at Drain if it confirms it, and leaves it
  // as it is if not.
  lemma RecordedOrNot(s: Setup, h: History, n: nat, samples: seq<Sample>, settled: Run, j: Job)
    requires IsHistory(s, h) && n < |h.turns| && Succeeds(s, h.turns[n]) && samples == SamplesOf(s, h.turns[n])
    requires Halves(s, h.ws[n], h.turns[n].listing.jobs, samples, h.turns[n].now, settled, h.ws[n + 1])
    requires Distinct(h.turns[n].listing.jobs) && JudgedIn(s, h.turns[n], j) && h.turns[n].now != UNSET
    requires ToBeDrained(Last(settled), j)
    ensures Started(h.ws[n + 1].run) && |settled.ops| <= |h.ws[n + 1].run.ops|
    ensures if Confirming(j, h.turns[n].now) in h.ws[n + 1].run.ops[|settled.ops|..]
      then DrainedAt(Last(h.ws[n + 1].run), j.id, j.startTime, h.turns[n].now)
      else ToBeDrained(Last(h.ws[n + 1].run), j)
  {
    var run, a := h.ws[n + 1].run, |settled.ops|;
    ActingConfirms(s, h, n, samples, settled, j);
    assert run.ms[a] == Last(settled) && run.ops[a..] == run.ops[a..|run.ops|];
    ConfirmsAtMost(s.rules, run, a, |run.ops|, j, h.turns[n].now);
  }

  // A turn that finds a job at Drain, not drained before, with both gates open:
  // either all of its nodes were drained, and its record says so, or one of the
  // calls failed, and the record says nothing, so that the next turn tries again.
  lemma DrainIsRecordedOrFailed(s: Setup, h: History, n: nat, k: nat)
    requires IsHistory(s, h) && n < |h.turns| && s.wiring.live && s.wiring.enforce
    requires h.turns[n].listing.Listed? && Distinct(h.turns[n].listing.jobs) && h.turns[n].now != UNSET
    requires |h.ws[n].run.ops| <= k < |h.ws[n + 1].run.ops| == |h.ws[n + 1].run.fs| && h.ws[n + 1].run.ops[k].Evaluating?
    requires h.ws[n + 1].run.fs[k].verdict == Drain && !h.ws[n + 1].run.fs[k].drainConfirmed
    ensures var j := h.ws[n + 1].run.ops[k].j;
      Started(h.ws[n + 1].run) &&
      if DrainedAt(Last(h.ws[n + 1].run), j.id, j.startTime, h.turns[n].now) then DrainedDuring(h, n, j)
      else ToBeDrained(Last(h.ws[n + 1].run), j) && DrainFailed(h.ws[n + 1].calls, |h.ws[n].calls|, j.id)
  {
    var w, w', turn := h.ws[n], h.ws[n + 1], h.turns[n];
    var j := w'.run.ops[k].j;
    var samples, settled := EvaluatedBeforeActing(s, h, n, k);
    StillToBeDrained(s, w, turn.listing.jobs, samples, turn.now, settled, w', k);
    RecordedOrNot(s, h, n, samples, settled, j);
    if Confirming(j, turn.now) in w'.run.ops[|settled.ops|..] {
      var i :| |settled.ops| <= i < |w'.run.ops| && w'.run.ops[i] == Confirming(j, turn.now);
      ConfirmOrigin(s, h, n, i, samples, settled);
    } else {
      UnconfirmedFailed(s, w, turn.listing.jobs, samples, turn.now, settled, w', k);
    }
  }

  // If it is not confirmed then one of the calls failed.
  lemma UnconfirmedFailed(s: Setup, w: World, jobs: seq<Job>, samples: seq<Sample>, now: Time, settled: Run, w': World, k: nat)
    requires Halves(s, w, jobs, samples, now, settled, w') && s.wiring.live && s.wiring.enforce
    requires |w.run.ops| <= k < |settled.ops| && settled.ops[k].Evaluating? && settled.fs[k].verdict == Drain && !settled.fs[k].drainConfirmed
    requires Confirming(settled.ops[k].j, now) !in w'.run.ops[|settled.ops|..]
    ensures DrainFailed(w'.calls, |w.calls|, settled.ops[k].j.id)
  {
    FindingReported(s, w, jobs, samples, now, settled, w', k);
    ActAnswers(s.wiring, w.calls, ReportsSince(settled, |w.run.ops|), now, settled.fs[k]);
    assert w'.run.ops[|settled.ops|..] == Act(s.wiring, w.calls, ReportsSince(settled, |w.run.ops|), now).confirms;
  }

  lemma {:induction false} ReportedAt(ops: seq<Op>, fs: seq<Finding>, k: nat)
    requires |ops| == |fs| && k < |ops| && ops[k].Evaluating?
    ensures fs[k] in Reports(ops, fs)
  {
    if k < |ops| - 1 {
      ReportedAt(ops[..|ops| - 1], fs[..|fs| - 1], k);
    }
  }

  lemma ReportedSince(run: Run, base: nat, k: nat)
    requires base <= k < |run.ops| == |run.fs| && run.ops[k].Evaluating?
    ensures run.fs[k] in ReportsSince(run, base)
  {
    ReportedAt(run.ops[base..], run.fs[base..], k - base);
  }

  lemma FindingReported(s: Setup, w: World, jobs: seq<Job>, samples: seq<Sample>, now: Time, settled: Run, w': World, k: nat)
    requires Halves(s, w, jobs, samples, now, settled, w') && |w.run.ops| <= k < |settled.ops| && settled.ops[k].Evaluating?
    ensures settled.fs[k] in ReportsSince(settled, |w.run.ops|) && settled.fs[k].job == settled.ops[k].j
  {
    ReportedSince(settled, |w.run.ops|, k);
    FindingIsAbout(s.rules, settled, k);
  }

  // ---- A drain that is already recorded ----

  // What the engine hears of a job before it evaluates it: nothing but that it is
  // still listed, and its samples.
  lemma HeardBefore(jobs: seq<Job>, samples: seq<Sample>, scope: seq<Job>, now: Time, ops: seq<Op>, base: nat, k: nat)
    requires Distinct(scope) && base < k < |ops| && ops[base..] == SettleOps(jobs, samples, scope, now)
    requires ops[k].Evaluating? && Isolation.Concerns(ops[k - 1], ops[k].j.id)
    ensures forall i :: base <= i < k - 1 ==> !Isolation.Concerns(ops[i], ops[k].j.id)
  {
    var tail := ops[base..];
    assert tail[k - base] == ops[k];
    forall i | base <= i < k - 1 ensures !Isolation.Concerns(ops[i], ops[k].j.id) {
      assert tail[i - base] == ops[i];
      if Isolation.Concerns(ops[i], ops[k].j.id) {
        SettledOnce(jobs, samples, scope, now, i - base, k - base, ops[k].j.id);
        assert false;
      }
    }
  }

  // So its record, when it is delivered its samples, is the one the turn found.
  lemma RecordWhenDelivered(s: Setup, w: World, jobs: seq<Job>, samples: seq<Sample>, now: Time, settled: Run, w': World, k: nat)
    requires Halves(s, w, jobs, samples, now, settled, w') && Distinct(jobs) && IsRun(s.rules, w.run)
    requires |w.run.ops| + 1 < k < |settled.ops| && settled.ops[k].Evaluating? && Isolation.Concerns(settled.ops[k - 1], settled.ops[k].j.id)
    requires settled.ops[k].j.id in Active(jobs)
    ensures Isolation.Same(Last(w.run), settled.ms[k - 1], settled.ops[k].j.id)
  {
    HeardNothing(s, w, jobs, samples, now, settled, w', k);
    ListedSurvives(s, w, jobs, samples, now, settled, settled.ops[k].j.id);
  }

  lemma HeardNothing(s: Setup, w: World, jobs: seq<Job>, samples: seq<Sample>, now: Time, settled: Run, w': World, k: nat)
    requires Halves(s, w, jobs, samples, now, settled, w') && Distinct(jobs)
    requires |w.run.ops| + 1 < k < |settled.ops| && settled.ops[k].Evaluating? && Isolation.Concerns(settled.ops[k - 1], settled.ops[k].j.id)
    ensures Isolation.Same(settled.ms[|w.run.ops| + 1], settled.ms[k - 1], settled.ops[k].j.id)
  {
    var from, id := |w.run.ops| + 1, settled.ops[k].j.id;
    assert forall i :: from <= i < k - 1 ==> !Isolation.Concerns(settled.ops[i], id) by {
      ScopeIsDistinct(s, jobs);
      SettledTail(s, w, jobs, samples, now, settled, w');
      HeardBefore(jobs, samples, InScope(s, jobs), now, settled.ops, from, k);
    }
    Untouched(s.rules, settled, from, k - 1, id);
  }

  lemma ListedSurvives(s: Setup, w: World, jobs: seq<Job>, samples: seq<Sample>, now: Time, settled: Run, id: string)
    requires IsRun(s.rules, w.run) && Extends(s.rules, w.run, SettledOps(s, jobs, samples, now), settled) && id in Active(jobs)
    ensures |w.run.ops| < |settled.ops| && Isolation.Same(Last(w.run), settled.ms[|w.run.ops| + 1], id)
  {
    var base := |w.run.ops|;
    assert settled.ops[base] == SettledOps(s, jobs, samples, now)[0];
    assert settled.ms[base] == Last(w.run);
    assert Stepped(s.rules, settled, base);
  }

  // The same of a turn of a history: when the job is delivered its samples, its
  // record is as the turn before left it.
  lemma RecordBeforeDelivery(s: Setup, h: History, n: nat, k: nat)
    requires IsHistory(s, h) && n < |h.turns| && h.turns[n].listing.Listed? && Distinct(h.turns[n].listing.jobs)
    requires |h.ws[n].run.ops| <= k < |h.ws[n + 1].run.ops| && h.ws[n + 1].run.ops[k].Evaluating?
    ensures var run := h.ws[n + 1].run;
      && 0 < k && Started(run) && Started(h.ws[n].run)
      && run.ops[k - 1].Observing? && run.ops[k - 1].j == run.ops[k].j
      && Isolation.Same(Last(h.ws[n].run), run.ms[k - 1], run.ops[k].j.id)
  {
    HistoryGrows(s, h, n, n + 1);
    OpOrigin(s, h, n, k);
    OpOfForgetting(s, h, n);
    var samples, settled := EvaluatedBeforeActing(s, h, n, k);
    ScopeIsListed(s, h.turns[n].listing.jobs);
    assert settled.ops <= h.ws[n + 1].run.ops && settled.ms <= h.ws[n + 1].run.ms;
    RecordWhenDelivered(s, h.ws[n], h.turns[n].listing.jobs, samples, h.turns[n].now, settled, h.ws[n + 1], k);
  }

  // A delivery keeps what a record says, or starts an empty one.
  lemma DeliveryKeeps(c: Rules, run: Run, n: nat, id: string, start: Time, D: Time)
    requires IsRun(c, run) && n < |run.ops| && run.ops[n].Observing? && run.ops[n].j.id == id
    requires DrainedAt(run.ms[n], id, start, D)
    ensures run.ops[n].j.startTime == start ==> DrainedAt(run.ms[n + 1], id, start, D)
    ensures run.ops[n].j.startTime != start ==> !Raised(run.ms[n + 1], id, run.ops[n].j.startTime)
  {
    assert Stepped(c, run, n);
  }

  // So when the job is judged, its record still says drained, or is a new one.
  lemma JudgedAsDrained(s: Setup, h: History, n: nat, id: string, start: Time, D: Time, k: nat)
    requires IsHistory(s, h) && n < |h.turns| && h.turns[n].listing.Listed? && Distinct(h.turns[n].listing.jobs)
    requires |h.ws[n].run.ops| <= k < |h.ws[n + 1].run.ops| && h.ws[n + 1].run.ops[k].Evaluating? && h.ws[n + 1].run.ops[k].j.id == id
    requires Started(h.ws[n].run) && DrainedAt(Last(h.ws[n].run), id, start, D)
    ensures var run, at := h.ws[n + 1].run, h.ws[n + 1].run.ops[k].j.startTime;
      Started(run) && (DrainedAt(run.ms[k], id, start, D) || !Raised(run.ms[k], id, at))
  {
    HistoryGrows(s, h, n, n + 1);
    RecordBeforeDelivery(s, h, n, k);
    DeliveryKeeps(s.rules, h.ws[n + 1].run, k - 1, id, start, D);
  }

  // When no job is listed twice, a record that says drained when the turn begins
  // gets no drain in that turn, whatever the turn does to it.
  lemma RecordedGetsNoDrain(s: Setup, h: History, n: nat, id: string, start: Time, D: Time, i: nat)
    requires IsHistory(s, h) && n < |h.turns| && |h.ws[n].calls| <= i < |h.ws[n + 1].calls|
    requires h.turns[n].listing.Listed? && Distinct(h.turns[n].listing.jobs)
    requires Started(h.ws[n].run) && DrainedAt(Last(h.ws[n].run), id, start, D)
    ensures h.ws[n + 1].calls[i].DrainCall? ==> h.ws[n + 1].calls[i].job != id
  {
    if h.ws[n + 1].calls[i].DrainCall? && h.ws[n + 1].calls[i].job == id {
      var k := CallOrigin(s, h, n, i);
      HistoryGrows(s, h, n, n + 1);
      FindingIsAbout(s.rules, h.ws[n + 1].run, k);
      JudgedAsDrained(s, h, n, id, start, D, k);
      assert false;
    }
  }
}
