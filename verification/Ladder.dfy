// The order of the ladder, over every run: any interleaving of the engine's
// operations, at any times, for any configuration.
module Ladder {
  import opened Telemetry
  import opened Policy
  import opened Runs

  // The record of this incarnation last reported Alert or worse.
  ghost predicate Raised(m: Memory, id: string, start: Time) {
    Holds(m, id, start) && !m.jobs[id].lastVerdict.Below(Alert)
  }

  // A drain of this incarnation was confirmed at D and not wiped since.
  ghost predicate DrainedAt(m: Memory, id: string, start: Time, D: Time) {
    Holds(m, id, start) && m.jobs[id].drainConfirmedAt == D && D != UNSET
  }

  ghost predicate Judges(op: Op, id: string, start: Time) {
    op.Evaluating? && op.j.id == id && op.j.startTime == start
  }

  ghost predicate Confirms(op: Op, id: string, start: Time, at: Time) {
    op.Confirming? && op.j.id == id && op.j.startTime == start && op.at == at
  }

  // What one judgement can do to a record.
  lemma JudgeMoves(c: Rules, cancellable: set<Signature>, r: JobRecord, j: Job, now: Time)
    requires r.samples != []
    ensures var (r', f) := Judge(c, cancellable, r, j, now);
      && r'.startTime == r.startTime && r'.samples == r.samples
      && r'.lastVerdict == f.verdict
      && (r' == r.Reset() || r'.drainConfirmedAt == r.drainConfirmedAt)
      && (Alert.Below(f.verdict) ==> !r.lastVerdict.Below(Alert) && (f.signature == Idle || f.signature == Hung))
      && (f.verdict == Cancel ==>
           && !r.lastVerdict.Below(Drain)
           && r.drainConfirmedAt != UNSET && c.t.window <= now - r.drainConfirmedAt
           && f.signature in cancellable)
  {
  }

  // Nothing follows from the record: it is new, or was wiped.
  ghost predicate Blank(r: JobRecord) {
    r.lastVerdict == Healthy && r.drainConfirmedAt == UNSET && r.breachedSince == UNSET
  }

  ghost predicate SameCharge(r: JobRecord, r': JobRecord) {
    r.lastVerdict == r'.lastVerdict && r.drainConfirmedAt == r'.drainConfirmedAt && r.breachedSince == r'.breachedSince
  }

  // What operation n can do to the record of an incarnation.
  lemma StepMoves(c: Rules, run: Run, n: nat, id: string, start: Time)
    requires IsRun(c, run) && n < |run.ops| && Holds(run.ms[n + 1], id, start)
    ensures var op, r' := run.ops[n], run.ms[n + 1].jobs[id];
      if !Holds(run.ms[n], id, start) then Blank(r')
      else
        var r := run.ms[n].jobs[id];
        || SameCharge(r, r')
        || (&& Confirms(op, id, start, r'.drainConfirmedAt) && r.drainConfirmedAt == UNSET
            && r.lastVerdict == Drain == r'.lastVerdict && r.breachedSince == r'.breachedSince)
        || (&& Judges(op, id, start)
            && r'.lastVerdict == run.fs[n].verdict
            && (Alert.Below(r'.lastVerdict) ==> Raised(run.ms[n], id, start))
            && (r'.drainConfirmedAt == r.drainConfirmedAt || Blank(r')))
  {
    assert Stepped(c, run, n);
    var op, m := run.ops[n], run.ms[n];
    if op.Evaluating? && op.j.id == id && RecordFor(m, op.j).samples != [] {
      JudgeMoves(c, m.cancellable, RecordFor(m, op.j), op.j, op.now);
    }
  }

  // What a severe verdict at operation n requires of the record.
  lemma SevereNeeds(c: Rules, run: Run, n: nat)
    requires IsRun(c, run) && n < |run.ops| && run.ops[n].Evaluating? && Alert.Below(run.fs[n].verdict)
    ensures var j, m, v := run.ops[n].j, run.ms[n], run.fs[n].verdict;
      && Raised(m, j.id, j.startTime)
      && (v == Cancel ==>
           && var D := m.jobs[j.id].drainConfirmedAt;
           && DrainedAt(m, j.id, j.startTime, D) && D + c.t.window <= run.ops[n].now
           && run.fs[n].signature in m.cancellable)
  {
    assert Stepped(c, run, n);
    JudgeMoves(c, run.ms[n].cancellable, RecordFor(run.ms[n], run.ops[n].j), run.ops[n].j, run.ops[n].now);
  }

  // The ladder only ever lowers what the stages ask for.
  lemma SevereStage(c: Rules, run: Run, n: nat)
    requires IsRun(c, run) && n < |run.ops| && run.ops[n].Evaluating? && Alert.Below(run.fs[n].verdict)
    ensures Alert.Below(StageFor(c.stages, run.ops[n].now - run.fs[n].breachedSince))
  {
    assert Stepped(c, run, n);
  }

  // A confirmed breach is reported Healthy only if a stage says so.
  lemma HealthyWhen(c: Rules, run: Run, n: nat)
    requires IsRun(c, run) && n < |run.ops| && run.ops[n].Evaluating?
    ensures run.fs[n].reason != Breach ==> run.fs[n].verdict == Healthy
    ensures run.fs[n].reason == Breach && run.fs[n].verdict == Healthy ==>
      StageFor(c.stages, run.ops[n].now - run.fs[n].breachedSince) == Healthy
  {
    assert Stepped(c, run, n);
  }

  // The first verdict at or above Alert since the record was last wiped is
  // exactly Alert: whenever a record is raised, there is the evaluation that
  // raised it, it reported Alert, and the record stayed raised ever since.
  lemma {:induction false} AlertComesFirst(c: Rules, run: Run, n: nat, id: string, start: Time) returns (a: nat)
    requires IsRun(c, run) && n <= |run.ops| && Raised(run.ms[n], id, start)
    ensures a < n && Judges(run.ops[a], id, start) && run.fs[a].verdict == Alert
    ensures !Raised(run.ms[a], id, start)
    ensures forall m :: a < m <= n ==> Raised(run.ms[m], id, start)
  {
    StepMoves(c, run, n - 1, id, start);
    a := n - 1;
    if Raised(run.ms[a], id, start) {
      a := AlertComesFirst(c, run, a, id, start);
    }
  }

  lemma {:induction false} ConfirmationFound(c: Rules, run: Run, n: nat, id: string, start: Time, D: Time) returns (k: nat)
    requires IsRun(c, run) && n <= |run.ops| && DrainedAt(run.ms[n], id, start, D)
    ensures k < n && Confirms(run.ops[k], id, start, D)
    ensures Holds(run.ms[k], id, start) && run.ms[k].jobs[id].lastVerdict == Drain
    ensures forall m :: k < m <= n ==> DrainedAt(run.ms[m], id, start, D)
  {
    StepMoves(c, run, n - 1, id, start);
    k := n - 1;
    if DrainedAt(run.ms[k], id, start, D) {
      k := ConfirmationFound(c, run, k, id, start, D);
    }
  }

  lemma {:induction false} DrainVerdictFound(c: Rules, run: Run, n: nat, id: string, start: Time) returns (d: nat)
    requires IsRun(c, run) && n <= |run.ops| && Holds(run.ms[n], id, start) && run.ms[n].jobs[id].lastVerdict == Drain
    ensures d < n && Judges(run.ops[d], id, start) && run.fs[d].verdict == Drain
    ensures forall m :: d <= m <= n ==> Raised(run.ms[m], id, start)
  {
    StepMoves(c, run, n - 1, id, start);
    d := n - 1;
    if Judges(run.ops[d], id, start) && run.fs[d].verdict == Drain {
      SevereNeeds(c, run, d);
    } else {
      d := DrainVerdictFound(c, run, d, id, start);
    }
  }

  // Every Drain follows such an Alert.
  lemma DrainFollowsAlert(c: Rules, run: Run, n: nat) returns (a: nat)
    requires IsRun(c, run) && n < |run.ops| && run.ops[n].Evaluating? && Alert.Below(run.fs[n].verdict)
    ensures var j := run.ops[n].j;
      && a < n && Judges(run.ops[a], j.id, j.startTime) && run.fs[a].verdict == Alert
      && !Raised(run.ms[a], j.id, j.startTime)
      && forall m :: a < m <= n ==> Raised(run.ms[m], j.id, j.startTime)
  {
    SevereNeeds(c, run, n);
    a := AlertComesFirst(c, run, n, run.ops[n].j.id, run.ops[n].j.startTime);
  }

  // Every Cancel follows, within one incarnation and with no wipe of its record
  // in between: an Alert, then a Drain, then the confirmation of that drain at
  // a time at least one window ago.
  lemma CancelFollowsDrain(c: Rules, run: Run, n: nat) returns (a: nat, d: nat, k: nat, D: Time)
    requires IsRun(c, run) && n < |run.ops| && run.ops[n].Evaluating? && run.fs[n].verdict == Cancel
    ensures var j := run.ops[n].j;
      && a < d < k < n
      && Judges(run.ops[a], j.id, j.startTime) && run.fs[a].verdict == Alert && !Raised(run.ms[a], j.id, j.startTime)
      && Judges(run.ops[d], j.id, j.startTime) && run.fs[d].verdict == Drain
      && Confirms(run.ops[k], j.id, j.startTime, D) && D + c.t.window <= run.ops[n].now
      && (forall m :: a < m <= k ==> Raised(run.ms[m], j.id, j.startTime))
      && (forall m :: k < m <= n ==> DrainedAt(run.ms[m], j.id, j.startTime, D))
      && D == run.ms[n].jobs[j.id].drainConfirmedAt
      && run.fs[n].signature in run.ms[n].cancellable
  {
    var id, start := run.ops[n].j.id, run.ops[n].j.startTime;
    SevereNeeds(c, run, n);
    D := run.ms[n].jobs[id].drainConfirmedAt;
    k := ConfirmationFound(c, run, n, id, start, D);
    d := DrainVerdictFound(c, run, k, id, start);
    a := AlertComesFirst(c, run, k, id, start);
    if d <= a {
      assert false;
    }
  }

  // An evaluation that comes too early, or of a job without GPUs or exempt, leaves
  // everything as it was, and is Healthy; one of a job of unknown start forgets the
  // job; and no evaluation touches another job or what may be cancelled.
  lemma EvaluationTouches(c: Rules, run: Run, n: nat)
    requires IsRun(c, run) && n < |run.ops| && run.ops[n].Evaluating?
    ensures var j, now, m, m' := run.ops[n].j, run.ops[n].now, run.ms[n], run.ms[n + 1];
      && (j.gpuCount == 0 || c.exempt(j) || (j.startTime != UNSET && now < j.startTime + c.t.warmup) ==>
           m' == m && run.fs[n].verdict == Healthy)
      && (j.gpuCount != 0 && !c.exempt(j) && j.startTime == UNSET ==> j.id !in m'.jobs && run.fs[n].verdict == Healthy)
      && m'.cancellable == m.cancellable
      && forall id :: id != j.id ==> (id in m'.jobs <==> id in m.jobs) && (id in m.jobs ==> m'.jobs[id] == m.jobs[id])
  {
    assert Stepped(c, run, n);
  }

  // A list of signatures replaces the one before it if it holds none but idle and
  // hung, and changes nothing otherwise.
  lemma AllowingTouches(c: Rules, run: Run, n: nat)
    requires IsRun(c, run) && n < |run.ops| && run.ops[n].Allowing?
    ensures var sigs, m, m' := run.ops[n].sigs, run.ms[n], run.ms[n + 1];
      if Starved in sigs || Unknown in sigs then m' == m
      else m'.jobs == m.jobs && forall g :: g in m'.cancellable <==> g in sigs
  {
    assert Stepped(c, run, n);
  }

  // Only signatures that may be cancelled at all are ever cancellable.
  lemma {:induction false} CancellableAlwaysAllowed(c: Rules, run: Run, n: nat)
    requires IsRun(c, run) && n <= |run.ops|
    ensures run.ms[n].cancellable <= {Idle, Hung}
  {
    if n > 0 {
      CancellableAlwaysAllowed(c, run, n - 1);
      assert Stepped(c, run, n - 1);
    }
  }

  // The record allows a Cancel of this signature at that time.
  predicate MayCancel(t: Thresholds, cancellable: set<Signature>, r: JobRecord, sig: Signature, now: Time) {
    && sig in cancellable
    && !r.lastVerdict.Below(Drain) && r.drainConfirmedAt != UNSET && r.drainConfirmedAt + t.window <= now
  }

  // A severe verdict is in order: the stage asks for it, the signature is one of
  // the two that are understood, and the record was raised before.
  predicate SevereInOrder(r: JobRecord, sig: Signature, wanted: Verdict) {
    Alert.Below(wanted) && (sig == Idle || sig == Hung) && !r.lastVerdict.Below(Alert)
  }

  lemma ClimbExactly(t: Thresholds, cancellable: set<Signature>, r: JobRecord, sig: Signature, wanted: Verdict, now: Time)
    ensures var v := Climb(t, r, Capped(wanted, sig, cancellable), now);
      var cancel := wanted == Cancel && MayCancel(t, cancellable, r, sig, now);
      && (v == Cancel <==> SevereInOrder(r, sig, wanted) && cancel)
      && (v == Drain <==> SevereInOrder(r, sig, wanted) && !cancel)
      && (!SevereInOrder(r, sig, wanted) ==> v == if Alert.Below(wanted) then Alert else wanted)
  {
  }

  lemma BreachClimbs(c: Rules, run: Run, n: nat)
    requires IsRun(c, run) && n < |run.ops| && run.ops[n].Evaluating? && run.fs[n].reason == Breach
    ensures var j, now, f, m := run.ops[n].j, run.ops[n].now, run.fs[n], run.ms[n];
      && Holds(m, j.id, j.startTime)
      && f.verdict == Climb(c.t, m.jobs[j.id], Capped(StageFor(c.stages, now - f.breachedSince), f.signature, m.cancellable), now)
  {
    assert Stepped(c, run, n);
  }

  // Exactly when a confirmed breach drains and when it cancels, in any run; when
  // it does neither, the verdict is what the stage says, but no more than Alert.
  lemma SevereExactly(c: Rules, run: Run, n: nat)
    requires IsRun(c, run) && n < |run.ops| && run.ops[n].Evaluating? && run.fs[n].reason == Breach
    ensures var j, now, f, m := run.ops[n].j, run.ops[n].now, run.fs[n], run.ms[n];
      && Holds(m, j.id, j.startTime)
      && var r, wanted := m.jobs[j.id], StageFor(c.stages, now - f.breachedSince);
      var cancel := wanted == Cancel && MayCancel(c.t, m.cancellable, r, f.signature, now);
      && (f.verdict == Cancel <==> SevereInOrder(r, f.signature, wanted) && cancel)
      && (f.verdict == Drain <==> SevereInOrder(r, f.signature, wanted) && !cancel)
      && (!SevereInOrder(r, f.signature, wanted) ==> f.verdict == if Alert.Below(wanted) then Alert else wanted)
  {
    BreachClimbs(c, run, n);
    var j, now, f, m := run.ops[n].j, run.ops[n].now, run.fs[n], run.ms[n];
    ClimbExactly(c.t, m.cancellable, m.jobs[j.id], f.signature, StageFor(c.stages, now - f.breachedSince), now);
  }

  // A recovery is reported exactly when a busy job's record said that its nodes
  // were drained, and it is reported once: the record is wiped.
  lemma RecoveryIsReportedOnce(c: Rules, run: Run, n: nat)
    requires IsRun(c, run) && n < |run.ops| && run.ops[n].Evaluating?
    ensures var j := run.ops[n].j;
      && (run.fs[n].recoveredAfterDrain <==>
           run.fs[n].reason == Busy && Holds(run.ms[n], j.id, j.startTime) && run.ms[n].jobs[j.id].drainConfirmedAt != UNSET)
      && (run.fs[n].reason == Busy ==> Holds(run.ms[n + 1], j.id, j.startTime) && Blank(run.ms[n + 1].jobs[j.id]))
  {
    assert Stepped(c, run, n);
  }

  // ---- Is the window before a Cancel spent at Drain? ----

  // This evaluation called for more than an alert.
  ghost predicate CallsForMore(c: Rules, run: Run, i: nat)
    requires i < |run.ops| == |run.fs| && run.ops[i].Evaluating?
  {
    && Alert.Below(StageFor(c.stages, run.ops[i].now - run.fs[i].breachedSince))
    && (run.fs[i].signature == Idle || run.fs[i].signature == Hung)
  }

  lemma OnlyBreachesAreSigned(c: Rules, run: Run, n: nat)
    requires IsRun(c, run) && n < |run.ops| && run.ops[n].Evaluating? && run.fs[n].reason != Breach
    ensures run.fs[n].signature == Unknown
  {
    assert Stepped(c, run, n);
  }

  lemma SevereCallsForMore(c: Rules, run: Run, i: nat)
    requires IsRun(c, run) && i < |run.ops| && run.ops[i].Evaluating?
    ensures Alert.Below(run.fs[i].verdict) ==> CallsForMore(c, run, i)
    ensures CallsForMore(c, run, i) && Raised(run.ms[i], run.ops[i].j.id, run.ops[i].j.startTime) ==> Alert.Below(run.fs[i].verdict)
  {
    HealthyWhen(c, run, i);
    if run.fs[i].reason == Breach {
      SevereExactly(c, run, i);
    } else {
      OnlyBreachesAreSigned(c, run, i);
    }
  }

  // A confirmed record that was at Drain stays raised while every evaluation
  // calls for more than an alert.
  lemma {:induction false} StaysRaised(c: Rules, run: Run, a: nat, b: nat, id: string, start: Time, D: Time)
    requires IsRun(c, run) && a <= b <= |run.ops| && Raised(run.ms[a], id, start)
    requires forall m :: a <= m <= b ==> DrainedAt(run.ms[m], id, start, D)
    requires forall i :: a <= i < b && Judges(run.ops[i], id, start) ==> CallsForMore(c, run, i)
    ensures forall m :: a <= m <= b ==> Raised(run.ms[m], id, start)
  {
    if a < b {
      StaysRaised(c, run, a, b - 1, id, start, D);
      StepMoves(c, run, b - 1, id, start);
      if Judges(run.ops[b - 1], id, start) {
        SevereCallsForMore(c, run, b - 1);
      }
    }
  }

  lemma ConfirmedAtDrain(c: Rules, run: Run, k: nat, id: string, start: Time, D: Time)
    requires IsRun(c, run) && k < |run.ops| && Confirms(run.ops[k], id, start, D)
    requires Raised(run.ms[k], id, start) && DrainedAt(run.ms[k + 1], id, start, D)
    ensures Raised(run.ms[k + 1], id, start)
  {
    assert Stepped(c, run, k);
  }

  // Cancel needs one window since the drain was confirmed. Whether that window
  // was spent at Drain is another matter: every evaluation since the confirmation
  // reported Drain or Cancel if and only if each of them called for it.
  lemma WindowSpentAtDrain(c: Rules, run: Run, n: nat) returns (k: nat, D: Time)
    requires IsRun(c, run) && n < |run.ops| && run.ops[n].Evaluating? && run.fs[n].verdict == Cancel
    ensures var id, start := run.ops[n].j.id, run.ops[n].j.startTime;
      && k < n && Confirms(run.ops[k], id, start, D) && D + c.t.window <= run.ops[n].now
      && (forall m :: k < m <= n ==> DrainedAt(run.ms[m], id, start, D))
      && ((forall i :: k < i < n && Judges(run.ops[i], id, start) ==> Alert.Below(run.fs[i].verdict))
          <==> (forall i :: k < i < n && Judges(run.ops[i], id, start) ==> CallsForMore(c, run, i)))
  {
    var id, start := run.ops[n].j.id, run.ops[n].j.startTime;
    var a, d;
    a, d, k, D := CancelFollowsDrain(c, run, n);
    ConfirmedAtDrain(c, run, k, id, start, D);
    if forall i :: k < i < n && Judges(run.ops[i], id, start) ==> CallsForMore(c, run, i) {
      StaysRaised(c, run, k + 1, n, id, start, D);
    }
    forall i | k < i < n && Judges(run.ops[i], id, start)
      ensures Alert.Below(run.fs[i].verdict) ==> CallsForMore(c, run, i)
      ensures CallsForMore(c, run, i) && Raised(run.ms[i], id, start) ==> Alert.Below(run.fs[i].verdict)
    {
      SevereCallsForMore(c, run, i);
    }
  }

  // ---- What may be cancelled when nothing was said about it ----

  lemma {:induction false} CancellableStays(c: Rules, run: Run, n: nat)
    requires IsRun(c, run) && n <= |run.ops| && forall i :: 0 <= i < n ==> !run.ops[i].Allowing?
    ensures run.ms[n].cancellable == {Idle}
  {
    if n > 0 {
      CancellableStays(c, run, n - 1);
      assert Stepped(c, run, n - 1);
    }
  }

  // An engine that was never told which signatures may be cancelled cancels only
  // idle jobs.
  lemma OnlyIdleByDefault(c: Rules, run: Run, n: nat)
    requires IsRun(c, run) && n < |run.ops| && run.ops[n].Evaluating? && run.fs[n].verdict == Cancel
    requires forall i :: 0 <= i < n ==> !run.ops[i].Allowing?
    ensures run.fs[n].signature == Idle
  {
    CancellableStays(c, run, n);
    SevereNeeds(c, run, n);
  }
}
