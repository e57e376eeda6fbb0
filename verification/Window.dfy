// The record of one incarnation over a run: what was delivered to it, and how
// the window it keeps relates to that.
module Window {
  import opened Telemetry
  import opened Policy
  import opened Runs

  // The operation is on this incarnation of the job.
  predicate On(op: Op, id: string, start: Time) {
    (op.Observing? || op.Evaluating? || op.Confirming?) && op.j.id == id && op.j.startTime == start
  }

  // The operation delivers samples to this incarnation of the job.
  predicate Delivers(op: Op, id: string, start: Time) {
    op.Observing? && On(op, id, start)
  }

  function TimeOf(op: Op): Time
    requires op.Observing? || op.Evaluating? || op.Confirming?
  {
    match op
    case Observing(_, _, now) => now
    case Evaluating(_, now) => now
    case Confirming(_, at) => at
  }

  // The clock of the incarnation's operations never goes back.
  ghost predicate ClockForward(run: Run, id: string, start: Time) {
    forall i, k :: 0 <= i < k < |run.ops| && On(run.ops[i], id, start) && On(run.ops[k], id, start) ==> TimeOf(run.ops[i]) <= TimeOf(run.ops[k])
  }

  // Everything delivered to the record that exists before operation n.
  ghost function Log(c: Rules, run: Run, n: nat, id: string, start: Time): seq<Sample>
    requires IsRun(c, run) && n <= |run.ops|
  {
    if n == 0 || !Holds(run.ms[n], id, start) then []
    else
      var op := run.ops[n - 1];
      Log(c, run, n - 1, id, start) + if Delivers(op, id, start) then op.samples else []
  }

  // When that record was last given samples.
  ghost function LastObserved(c: Rules, run: Run, n: nat, id: string, start: Time): Time
    requires IsRun(c, run) && n <= |run.ops|
  {
    if n == 0 || !Holds(run.ms[n], id, start) then UNSET
    else
      var op := run.ops[n - 1];
      if Delivers(op, id, start) then op.now else LastObserved(c, run, n - 1, id, start)
  }

  // How one operation changes what is stored.
  lemma NextStores(c: Rules, m: Memory, op: Op, id: string, start: Time)
    requires Holds(Next(c, m, op), id, start)
    ensures var r' := Next(c, m, op).jobs[id];
      if Delivers(op, id, start) then
        r'.samples == Since((if Holds(m, id, start) then m.jobs[id].samples else []) + Admitted(c.t, start, op.samples), op.now - c.t.window)
      else Holds(m, id, start) && r'.samples == m.jobs[id].samples
  {
  }

  lemma StepStores(c: Rules, run: Run, n: nat, id: string, start: Time)
    requires IsRun(c, run) && n < |run.ops| && Holds(run.ms[n + 1], id, start)
    ensures var m, op, r' := run.ms[n], run.ops[n], run.ms[n + 1].jobs[id];
      if Delivers(op, id, start) then
        r'.samples == Since((if Holds(m, id, start) then m.jobs[id].samples else []) + Admitted(c.t, start, op.samples), op.now - c.t.window)
      else Holds(m, id, start) && r'.samples == m.jobs[id].samples
  {
    assert Stepped(c, run, n);
    NextStores(c, run.ms[n], run.ops[n], id, start);
  }

  lemma AdmittedAppend(t: Thresholds, start: Time, a: seq<Sample>, b: seq<Sample>)
    ensures Admitted(t, start, a + b) == Admitted(t, start, a) + Admitted(t, start, b)
  {
    SinceAppend(a, b, start + t.warmup);
  }

  lemma PruneAgain(earlier: seq<Sample>, added: seq<Sample>, last: Time, cutoff: Time)
    requires last <= cutoff
    ensures Since(Since(earlier, last) + added, cutoff) == Since(earlier + added, cutoff)
  {
    SinceAppend(Since(earlier, last), added, cutoff);
    SinceTwice(earlier, last, cutoff);
    SinceAppend(earlier, added, cutoff);
  }

  lemma {:induction false} LastDelivery(c: Rules, run: Run, n: nat, id: string, start: Time) returns (i: nat)
    requires IsRun(c, run) && n <= |run.ops| && Holds(run.ms[n], id, start)
    ensures i < n && Delivers(run.ops[i], id, start) && LastObserved(c, run, n, id, start) == run.ops[i].now
  {
    StepStores(c, run, n - 1, id, start);
    i := n - 1;
    if !Delivers(run.ops[i], id, start) {
      i := LastDelivery(c, run, i, id, start);
    }
  }

  // The whole log of the record, without warmup and without what is older than
  // one window at the last delivery.
  ghost function Filtered(c: Rules, run: Run, n: nat, id: string, start: Time): seq<Sample>
    requires IsRun(c, run) && n <= |run.ops|
  {
    Since(Admitted(c.t, start, Log(c, run, n, id, start)), LastObserved(c, run, n, id, start) - c.t.window)
  }

  lemma FilteredFirst(c: Rules, run: Run, n: nat, id: string, start: Time)
    requires IsRun(c, run) && n < |run.ops| && !Holds(run.ms[n], id, start) && Holds(run.ms[n + 1], id, start)
    requires Delivers(run.ops[n], id, start)
    ensures Filtered(c, run, n + 1, id, start) == Since([] + Admitted(c.t, start, run.ops[n].samples), run.ops[n].now - c.t.window)
  {
    assert Log(c, run, n, id, start) == [];
    AdmittedAppend(c.t, start, [], run.ops[n].samples);
    assert Admitted(c.t, start, []) == [];
  }

  lemma FilteredNext(c: Rules, run: Run, n: nat, id: string, start: Time)
    requires IsRun(c, run) && n < |run.ops| && ClockForward(run, id, start)
    requires Holds(run.ms[n], id, start) && Holds(run.ms[n + 1], id, start)
    requires Delivers(run.ops[n], id, start)
    ensures Filtered(c, run, n + 1, id, start)
         == Since(Filtered(c, run, n, id, start) + Admitted(c.t, start, run.ops[n].samples), run.ops[n].now - c.t.window)
  {
    var op, log := run.ops[n], Log(c, run, n, id, start);
    var k := LastDelivery(c, run, n, id, start);
    AdmittedAppend(c.t, start, log, op.samples);
    PruneAgain(Admitted(c.t, start, log), Admitted(c.t, start, op.samples), run.ops[k].now - c.t.window, op.now - c.t.window);
  }

  lemma FilteredSame(c: Rules, run: Run, n: nat, id: string, start: Time)
    requires IsRun(c, run) && n < |run.ops| && Holds(run.ms[n + 1], id, start)
    requires !Delivers(run.ops[n], id, start)
    ensures Filtered(c, run, n + 1, id, start) == Filtered(c, run, n, id, start)
  {
    StepStores(c, run, n, id, start);
    var log := Log(c, run, n, id, start);
    assert log + [] == log;
  }

  // The window kept in place is exactly that.
  lemma {:induction false} WindowIsFilteredLog(c: Rules, run: Run, n: nat, id: string, start: Time)
    requires IsRun(c, run) && n <= |run.ops| && ClockForward(run, id, start) && Holds(run.ms[n], id, start)
    ensures run.ms[n].jobs[id].samples == Filtered(c, run, n, id, start)
  {
    var i := n - 1;
    StepStores(c, run, i, id, start);
    if Holds(run.ms[i], id, start) {
      WindowIsFilteredLog(c, run, i, id, start);
      if Delivers(run.ops[i], id, start) {
        FilteredNext(c, run, i, id, start);
      } else {
        FilteredSame(c, run, i, id, start);
      }
    } else {
      FilteredFirst(c, run, i, id, start);
    }
  }
}
