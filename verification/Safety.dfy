// Whole histories of the daemon, against any job list, any telemetry and any
// answers of the cluster: what a destructive call implies.
module Safety {
  import opened Telemetry
  import opened Policy
  import opened Runs
  import opened Ladder
  import opened Actions
  import opened Daemon

  // ws[n] is the world before turn n.
  datatype History = History(sigs: seq<Signature>, turns: seq<Turn>, ws: seq<World>)

  ghost predicate TurnedAt(s: Setup, h: History, n: nat)
    requires n < |h.turns| && |h.ws| == |h.turns| + 1
  {
    Started(h.ws[n].run) && h.ws[n + 1] == Turned(s, h.ws[n], h.turns[n])
  }

  // A freshly built daemon, and the turns it took.
  ghost predicate IsHistory(s: Setup, h: History) {
    && |h.ws| == |h.turns| + 1
    && h.ws[0] == World(Did(s.rules, NOTHING, Allowing(h.sigs)), [])
    && forall n {:trigger TurnedAt(s, h, n)} :: 0 <= n < |h.turns| ==> TurnedAt(s, h, n)
  }

  // One more turn makes a longer history.
  lemma HistoryContinues(s: Setup, h: History, turn: Turn)
    requires IsHistory(s, h) && Started(h.ws[|h.turns|].run)
    ensures IsHistory(s, History(h.sigs, h.turns + [turn], h.ws + [Turned(s, h.ws[|h.turns|], turn)]))
  {
    var longer := History(h.sigs, h.turns + [turn], h.ws + [Turned(s, h.ws[|h.turns|], turn)]);
    forall n | 0 <= n < |longer.turns| ensures TurnedAt(s, longer, n) {
      if n < |h.turns| {
        assert TurnedAt(s, h, n);
      }
    }
  }

  // ---- What one turn does ----

  // In these operations, every delivery is of a judged job's own samples and is
  // judged at once, and every job that is not judged is dropped.
  ghost predicate SettleOp(jobs: seq<Job>, samples: seq<Sample>, scope: seq<Job>, now: Time, ops: seq<Op>, k: nat)
    requires k < |ops|
  {
    match ops[k]
    case Observing(j, own, at) =>
      && j in scope && FateOf(jobs, samples, j) == Judged && own == OnNodes(samples, j.nodes) && at == now
      && k + 1 < |ops| && ops[k + 1] == Evaluating(j, now)
    case Evaluating(j, at) =>
      && j in scope && FateOf(jobs, samples, j) == Judged && at == now
      && 0 < k && ops[k - 1] == Observing(j, OnNodes(samples, j.nodes), now)
    case Dropping(id) => exists j :: j in scope && j.id == id && FateOf(jobs, samples, j) != Judged
    case _ => false
  }

  lemma {:induction false} SettleOpsShape(jobs: seq<Job>, samples: seq<Sample>, scope: seq<Job>, now: Time, k: nat)
    requires k < |SettleOps(jobs, samples, scope, now)|
    ensures SettleOp(jobs, samples, scope, now, SettleOps(jobs, samples, scope, now), k)
  {
    var rest := SettleOps(jobs, samples, scope[..|scope| - 1], now);
    assert scope == scope[..|scope| - 1] + [scope[|scope| - 1]];
    if k < |rest| {
      SettleOpsShape(jobs, samples, scope[..|scope| - 1], now, k);
    }
  }

  // All nodes of the job were drained, in order, by calls number i and on.
  ghost predicate DrainedFrom(calls: seq<Call>, j: Job, i: nat) {
    i + |j.nodes| <= |calls| && forall k :: 0 <= k < |j.nodes| ==> calls[i + k] == DrainCall(j.nodes[k], j.id, true)
  }

  // A drain is confirmed only for a job whose finding asked for it, and with
  // both gates open only if all of its nodes were drained since call number base.
  ghost predicate ConfirmedFor(w: Wiring, base: nat, calls: seq<Call>, findings: seq<Finding>, now: Time, op: Op) {
    exists f, i: nat :: f in findings && ConfirmedBy(w, base, calls, f, i, now, op)
  }

  ghost predicate ConfirmedBy(w: Wiring, base: nat, calls: seq<Call>, f: Finding, i: nat, now: Time, op: Op) {
    && op == Confirming(f.job, now) && f.verdict == Drain && !f.drainConfirmed
    && base <= i && (w.live && w.enforce ==> DrainedFrom(calls, f.job, i))
  }

  // The cluster is called only with both gates open, and only for a finding
  // that asks for it.
  ghost predicate CalledFor(w: Wiring, findings: seq<Finding>, call: Call) {
    w.live && w.enforce && exists f :: f in findings && Asks(f, call)
  }

  ghost predicate Asks(f: Finding, call: Call) {
    && f.job.id == call.job
    && match call
       case CancelCall(_, _) => f.verdict == Cancel
       case DrainCall(node, _, _) => f.verdict == Drain && !f.drainConfirmed && node in f.job.nodes
  }

  ghost predicate DrainedSince(calls: seq<Call>, base: nat, j: Job) {
    exists i: nat :: base <= i && DrainedFrom(calls, j, i)
  }

  lemma OneFinding(w: Wiring, calls: seq<Call>, f: Finding) returns (from: nat)
    ensures var e := Handled(w, calls, f);
      && calls <= e.calls && from == |calls|
      && (forall i :: |calls| <= i < |e.calls| ==> w.live && w.enforce && Asks(f, e.calls[i]))
      && (e.ok && f.verdict == Drain && !f.drainConfirmed && e.outcome != Noop && w.live && w.enforce ==> DrainedFrom(e.calls, f.job, from))
  {
    from := |calls|;
    var e := Handled(w, calls, f);
    if w.live && w.enforce {
      HandleSends(w, calls, f);
      var made := e.calls[|calls|..];
      assert forall i :: |calls| <= i < |e.calls| ==> e.calls[i] == made[i - |calls|];
    } else {
      EitherGateSuffices(w, calls, f);
    }
  }

  lemma {:induction false} ActSends(w: Wiring, calls: seq<Call>, findings: seq<Finding>, now: Time)
    ensures var done := Act(w, calls, findings, now);
      && calls <= done.calls
      && (forall i :: |calls| <= i < |done.calls| ==> CalledFor(w, findings, done.calls[i]))
      && (forall k :: 0 <= k < |done.confirms| ==> ConfirmedFor(w, |calls|, done.calls, findings, now, done.confirms[k]))
  {
    if findings != [] {
      var rest, f := findings[..|findings| - 1], findings[|findings| - 1];
      assert findings == rest + [f];
      var before, done := Act(w, calls, rest, now), Act(w, calls, findings, now);
      ActSends(w, calls, rest, now);
      var from := OneFinding(w, before.calls, f);
      forall i | |calls| <= i < |done.calls| ensures CalledFor(w, findings, done.calls[i]) {
        if i < |before.calls| {
          assert CalledFor(w, rest, before.calls[i]);
        } else {
          assert Asks(f, done.calls[i]);
        }
      }
      forall k | 0 <= k < |done.confirms| ensures ConfirmedFor(w, |calls|, done.calls, findings, now, done.confirms[k]) {
        if k < |before.confirms| {
          StillConfirmed(w, |calls|, before.calls, done.calls, rest, findings, now, done.confirms[k]);
        } else {
          assert ConfirmedBy(w, |calls|, done.calls, f, from, now, done.confirms[k]);
        }
      }
    }
  }

  lemma StillConfirmed(w: Wiring, base: nat, calls: seq<Call>, more: seq<Call>, findings: seq<Finding>, all: seq<Finding>, now: Time, op: Op)
    requires calls <= more && findings <= all && ConfirmedFor(w, base, calls, findings, now, op)
    ensures ConfirmedFor(w, base, more, all, now, op)
  {
    var f, i: nat :| f in findings && ConfirmedBy(w, base, calls, f, i, now, op);
    assert f in all && ConfirmedBy(w, base, more, f, i, now, op);
  }

  // The two halves of a turn that gets as far as judging: the engine is told
  // about the jobs, and then what it reported is acted on.
  ghost predicate Halves(s: Setup, w: World, jobs: seq<Job>, samples: seq<Sample>, now: Time, settled: Run, w': World) {
    && Started(w.run) && Extends(s.rules, w.run, SettledOps(s, jobs, samples, now), settled)
    && var done := Act(s.wiring, w.calls, ReportsSince(settled, |w.run.ops|), now);
    && Extends(s.rules, settled, done.confirms, w'.run) && w'.calls == done.calls
  }

  lemma TurnHalves(s: Setup, w: World, turn: Turn) returns (samples: seq<Sample>, settled: Run)
    requires IsRun(s.rules, w.run)
    ensures var w' := Turned(s, w, turn);
      if Succeeds(s, turn) then
        && samples == SamplesOf(s, turn)
        && Halves(s, w, turn.listing.jobs, samples, turn.now, settled, w')
      else
        && w'.calls == w.calls
        && Extends(s.rules, w.run, if turn.listing.Listed? then [Forgetting(Active(turn.listing.jobs))] else [], w'.run)
  {
    samples, settled := [], w.run;
    if turn.listing.ListFailed? {
      DidAllExtends(s.rules, w.run, []);
    } else if Succeeds(s, turn) {
      var jobs := turn.listing.jobs;
      samples := SamplesOf(s, turn);
      settled := DidAll(s.rules, w.run, SettledOps(s, jobs, samples, turn.now));
      DidAllExtends(s.rules, w.run, SettledOps(s, jobs, samples, turn.now));
      DidAllExtends(s.rules, settled, Act(s.wiring, w.calls, ReportsSince(settled, |w.run.ops|), turn.now).confirms);
    } else {
      DidAllExtends(s.rules, w.run, [Forgetting(Active(turn.listing.jobs))]);
    }
  }

  // ---- Where an operation of a history comes from ----

  ghost predicate RunGrows(a: Run, b: Run) {
    a.ops <= b.ops && a.ms <= b.ms && a.fs <= b.fs
  }

  lemma TurnGrows(s: Setup, h: History, n: nat)
    requires IsHistory(s, h) && n < |h.turns| && IsRun(s.rules, h.ws[n].run)
    ensures IsRun(s.rules, h.ws[n + 1].run) && RunGrows(h.ws[n].run, h.ws[n + 1].run) && h.ws[n].calls <= h.ws[n + 1].calls
  {
    assert TurnedAt(s, h, n);
    var samples, settled := TurnHalves(s, h.ws[n], h.turns[n]);
    if Succeeds(s, h.turns[n]) {
      ActSends(s.wiring, h.ws[n].calls, ReportsSince(settled, |h.ws[n].run.ops|), h.turns[n].now);
    }
  }

  // The engine of a history only ever runs forward, and so do the calls.
  lemma {:induction false} HistoryGrows(s: Setup, h: History, m: nat, n: nat)
    requires IsHistory(s, h) && m <= n <= |h.turns|
    ensures IsRun(s.rules, h.ws[n].run) && IsRun(s.rules, h.ws[m].run)
    ensures RunGrows(h.ws[m].run, h.ws[n].run) && h.ws[m].calls <= h.ws[n].calls
  {
    if n == 0 {
      DidIsRun(s.rules, NOTHING, Allowing(h.sigs));
    } else if m == n {
      HistoryGrows(s, h, n - 1, n - 1);
      TurnGrows(s, h, n - 1);
    } else {
      HistoryGrows(s, h, m, n - 1);
      TurnGrows(s, h, n - 1);
    }
  }

  // What an operation can be, by the turn it was done in.
  ghost predicate TurnOp(s: Setup, h: History, m: nat, k: nat)
    requires |h.ws| == |h.turns| + 1 && m < |h.turns|
  {
    var turn, ops := h.turns[m], h.ws[m + 1].run.ops;
    && |h.ws[m].run.ops| <= k < |ops|
    && turn.listing.Listed?
    && match ops[k]
       case Observing(j, own, at) =>
         && JudgedIn(s, turn, j) && own == OnNodes(SamplesOf(s, turn), j.nodes)
         && at == turn.now && k + 1 < |ops| && ops[k + 1] == Evaluating(j, at)
       case Evaluating(j, at) =>
         && JudgedIn(s, turn, j)
         && at == turn.now && |h.ws[m].run.ops| < k && ops[k - 1] == Observing(j, OnNodes(SamplesOf(s, turn), j.nodes), at)
       case Confirming(j, at) =>
         && JudgedIn(s, turn, j)
         && at == turn.now && (s.wiring.live && s.wiring.enforce ==> DrainedDuring(h, m, j))
       case Dropping(id) => exists j :: j in InScope(s, turn.listing.jobs) && j.id == id
       case Forgetting(active) => active == Active(turn.listing.jobs)
       case Allowing(_) => false
  }

  function SamplesOf(s: Setup, turn: Turn): seq<Sample>
    requires Succeeds(s, turn)
  {
    turn.scrape(NodesOf(InScope(s, turn.listing.jobs))).samples
  }

  ghost predicate JudgedIn(s: Setup, turn: Turn, j: Job) {
    && Succeeds(s, turn)
    && j in InScope(s, turn.listing.jobs)
    && FateOf(turn.listing.jobs, SamplesOf(s, turn), j) == Judged
  }

  // Every node of the job was drained by a call of turn m that succeeded.
  ghost predicate DrainedDuring(h: History, m: nat, j: Job)
    requires |h.ws| == |h.turns| + 1 && m < |h.turns|
  {
    DrainedSince(h.ws[m + 1].calls, |h.ws[m].calls|, j)
  }

  lemma {:induction false} ReportFound(ops: seq<Op>, fs: seq<Finding>, f: Finding) returns (k: nat)
    requires |ops| == |fs| && f in Reports(ops, fs)
    ensures k < |ops| && ops[k].Evaluating? && fs[k] == f
  {
    k := |ops| - 1;
    if !(ops[k].Evaluating? && fs[k] == f) {
      k := ReportFound(ops[..k], fs[..k], f);
    }
  }

  lemma FindingIsAbout(c: Rules, run: Run, k: nat)
    requires IsRun(c, run) && k < |run.ops| && run.ops[k].Evaluating?
    ensures run.fs[k].job == run.ops[k].j
    ensures Alert.Below(run.fs[k].verdict) ==>
      && Raised(run.ms[k], run.ops[k].j.id, run.ops[k].j.startTime)
      && run.fs[k].drainConfirmed == (run.ms[k].jobs[run.ops[k].j.id].drainConfirmedAt != UNSET)
      && Holds(run.ms[k + 1], run.ops[k].j.id, run.ops[k].j.startTime)
  {
    assert Stepped(c, run, k);
    if Alert.Below(run.fs[k].verdict) {
      SevereNeeds(c, run, k);
    }
  }

  // A finding of a turn was reported by an evaluation of that turn.
  lemma FindingOrigin(s: Setup, w: World, jobs: seq<Job>, samples: seq<Sample>, now: Time, settled: Run, w': World, f: Finding) returns (k: nat)
    requires Halves(s, w, jobs, samples, now, settled, w') && f in ReportsSince(settled, |w.run.ops|)
    ensures |w.run.ops| < k < |settled.ops| && settled.ops[k] == Evaluating(f.job, now) && settled.fs[k] == f
    ensures f.job in InScope(s, jobs) && FateOf(jobs, samples, f.job) == Judged
  {
    var base := |w.run.ops|;
    var r := ReportFound(settled.ops[base..], settled.fs[base..], f);
    k := base + r;
    var scope := InScope(s, jobs);
    assert settled.ops[k] == SettledOps(s, jobs, samples, now)[r] == SettleOps(jobs, samples, scope, now)[r - 1];
    SettleOpsShape(jobs, samples, scope, now, r - 1);
    FindingIsAbout(s.rules, settled, k);
  }

  lemma {:induction false} ScopeIsListed(s: Setup, jobs: seq<Job>)
    ensures forall j :: j in InScope(s, jobs) <==> j in jobs && Considered(s, j)
  {
    if jobs != [] {
      ScopeIsListed(s, jobs[..|jobs| - 1]);
      assert jobs == jobs[..|jobs| - 1] + [jobs[|jobs| - 1]];
    }
  }

  // Every operation of a turn is one of those described.
  lemma OpOrigin(s: Setup, h: History, m: nat, k: nat)
    requires IsHistory(s, h) && m < |h.turns| && |h.ws[m].run.ops| <= k < |h.ws[m + 1].run.ops|
    ensures TurnOp(s, h, m, k)
  {
    HistoryGrows(s, h, m, m);
    assert TurnedAt(s, h, m);
    var w, w', turn := h.ws[m], h.ws[m + 1], h.turns[m];
    var samples, settled := TurnHalves(s, w, turn);
    if Succeeds(s, turn) {
      var base, scope := |w.run.ops|, InScope(s, turn.listing.jobs);
      if base < k < |settled.ops| {
        SettledOpOrigin(s, h, m, k, samples, settled);
      } else if |settled.ops| <= k {
        ConfirmOrigin(s, h, m, k, samples, settled);
      }
    }
  }

  lemma SettledOpOrigin(s: Setup, h: History, m: nat, k: nat, samples: seq<Sample>, settled: Run)
    requires |h.ws| == |h.turns| + 1 && m < |h.turns| && Succeeds(s, h.turns[m])
    requires samples == SamplesOf(s, h.turns[m])
    requires Halves(s, h.ws[m], h.turns[m].listing.jobs, samples, h.turns[m].now, settled, h.ws[m + 1])
    requires |h.ws[m].run.ops| < k < |settled.ops|
    ensures TurnOp(s, h, m, k)
  {
    var turn := h.turns[m];
    var ops := SettleOps(turn.listing.jobs, samples, InScope(s, turn.listing.jobs), turn.now);
    var r := k - |h.ws[m].run.ops| - 1;
    SettleOpsShape(turn.listing.jobs, samples, InScope(s, turn.listing.jobs), turn.now, r);
    var all := h.ws[m + 1].run.ops;
    assert all[k] == ops[r] && (0 < r ==> all[k - 1] == ops[r - 1]) && (r + 1 < |ops| ==> all[k + 1] == ops[r + 1]) by {
      assert all == h.ws[m].run.ops + ([Forgetting(Active(turn.listing.jobs))] + ops) + all[|settled.ops|..];
    }
  }

  lemma ConfirmOrigin(s: Setup, h: History, m: nat, k: nat, samples: seq<Sample>, settled: Run)
    requires |h.ws| == |h.turns| + 1 && m < |h.turns| && Succeeds(s, h.turns[m]) && samples == SamplesOf(s, h.turns[m])
    requires Halves(s, h.ws[m], h.turns[m].listing.jobs, samples, h.turns[m].now, settled, h.ws[m + 1])
    requires |settled.ops| <= k < |h.ws[m + 1].run.ops|
    ensures TurnOp(s, h, m, k)
  {
    var w, w', turn := h.ws[m], h.ws[m + 1], h.turns[m];
    var findings := ReportsSince(settled, |w.run.ops|);
    ActSends(s.wiring, w.calls, findings, turn.now);
    var op := w'.run.ops[k];
    assert op == Act(s.wiring, w.calls, findings, turn.now).confirms[k - |settled.ops|];
    var f, i: nat :| f in findings && ConfirmedBy(s.wiring, |w.calls|, w'.calls, f, i, turn.now, op);
    var e := FindingOrigin(s, w, turn.listing.jobs, samples, turn.now, settled, w', f);
  }

  // The turn in which an operation was done.
  lemma {:induction false} TurnOf(s: Setup, h: History, n: nat, k: nat) returns (m: nat)
    requires IsHistory(s, h) && n <= |h.turns| && 0 < k < |h.ws[n].run.ops|
    ensures m < n && |h.ws[m].run.ops| <= k < |h.ws[m + 1].run.ops|
  {
    m := n - 1;
    if k < |h.ws[m].run.ops| {
      m := TurnOf(s, h, m, k);
    }
  }

  // A call of a turn answers a finding that was evaluated in that turn.
  lemma CallOrigin(s: Setup, h: History, n: nat, i: nat) returns (k: nat)
    requires IsHistory(s, h) && n < |h.turns| && |h.ws[n].calls| <= i < |h.ws[n + 1].calls|
    ensures s.wiring.live && s.wiring.enforce
    ensures var run := h.ws[n + 1].run;
      && |h.ws[n].run.ops| < k < |run.ops| == |run.fs|
      && run.ops[k] == Evaluating(run.fs[k].job, h.turns[n].now) && Asks(run.fs[k], h.ws[n + 1].calls[i])
      && JudgedIn(s, h.turns[n], run.fs[k].job)
  {
    HistoryGrows(s, h, n, n);
    assert TurnedAt(s, h, n);
    var w, turn := h.ws[n], h.turns[n];
    var samples, settled := TurnHalves(s, w, turn);
    var findings := ReportsSince(settled, |w.run.ops|);
    ActSends(s.wiring, w.calls, findings, turn.now);
    assert CalledFor(s.wiring, findings, h.ws[n + 1].calls[i]);
    var f :| f in findings && Asks(f, h.ws[n + 1].calls[i]);
    k := FindingOrigin(s, w, turn.listing.jobs, samples, turn.now, settled, h.ws[n + 1], f);
  }

  // The confirmation behind a Cancel, found as the turn that drained the job.
  lemma DrainBehindCancel(s: Setup, h: History, n: nat, k: nat) returns (m: nat, d: nat, j: Job)
    requires IsHistory(s, h) && s.rules.t.Valid() && n < |h.turns|
    requires |h.ws[n].run.ops| < k < |h.ws[n + 1].run.ops| == |h.ws[n + 1].run.fs|
    requires var run := h.ws[n + 1].run;
      run.ops[k] == Evaluating(run.fs[k].job, h.turns[n].now) && run.fs[k].verdict == Cancel
    ensures var run, f := h.ws[n + 1].run, h.ws[n + 1].run.fs[k];
      && m < n && d < k && h.turns[m].now + s.rules.t.window <= h.turns[n].now
      && |h.ws[m].run.ops| <= d < |h.ws[m + 1].run.ops| && TurnOp(s, h, m, d)
      && h.ws[m + 1].run.ops[d] == Confirming(j, h.turns[m].now) && j.id == f.job.id && j.startTime == f.job.startTime
      && |run.ms| == |run.ops| + 1
      && forall i :: d < i <= k ==> DrainedAt(run.ms[i], j.id, j.startTime, h.turns[m].now)
  {
    HistoryGrows(s, h, n, n + 1);
    var run := h.ws[n + 1].run;
    var a, v, D;
    a, v, d, D := CancelFollowsDrain(s.rules, run, k);
    j := run.ops[d].j;
    m := TurnOf(s, h, n + 1, d);
    HistoryGrows(s, h, m + 1, n + 1);
    OpOrigin(s, h, m, d);
  }

  // What held at every operation holds at every turn boundary.
  lemma StaysDrained(s: Setup, h: History, m: nat, n: nat, d: nat, k: nat, j: Job)
    requires IsHistory(s, h) && m < n < |h.turns| && |h.ws[m].run.ops| <= d < |h.ws[m + 1].run.ops|
    requires |h.ws[n].run.ops| < k < |h.ws[n + 1].run.ops| < |h.ws[n + 1].run.ms|
    requires var ms := h.ws[n + 1].run.ms; forall i :: d < i <= k ==> DrainedAt(ms[i], j.id, j.startTime, h.turns[m].now)
    ensures forall x :: m < x <= n ==> Started(h.ws[x].run) && DrainedAt(Last(h.ws[x].run), j.id, j.startTime, h.turns[m].now)
  {
    forall x | m < x <= n ensures Started(h.ws[x].run) && DrainedAt(Last(h.ws[x].run), j.id, j.startTime, h.turns[m].now) {
      HistoryGrows(s, h, m + 1, x);
      HistoryGrows(s, h, x, n);
      HistoryGrows(s, h, n, n + 1);
      assert h.ws[n + 1].run.ms[|h.ws[x].run.ops|] == Last(h.ws[x].run);
    }
  }

  // A call that cancels a job implies that, at least one window earlier, one
  // turn drained every node of that same incarnation of the job, successfully;
  // and that its record was never dropped, forgotten, requeued or reset since.
  lemma CancelNeedsDrain(s: Setup, h: History, n: nat, i: nat) returns (m: nat, j: Job, cancelled: Job)
    requires IsHistory(s, h) && s.rules.t.Valid() && n < |h.turns|
    requires |h.ws[n].calls| <= i < |h.ws[n + 1].calls| && h.ws[n + 1].calls[i].CancelCall?
    ensures s.wiring.live && s.wiring.enforce
    ensures m < n && h.turns[m].now <= h.turns[n].now - s.rules.t.window
    ensures JudgedIn(s, h.turns[n], cancelled) && cancelled.id == h.ws[n + 1].calls[i].job
    ensures JudgedIn(s, h.turns[m], j) && j.id == cancelled.id && j.startTime == cancelled.startTime
    ensures DrainedDuring(h, m, j)
    ensures forall x :: m < x <= n ==> Started(h.ws[x].run) && DrainedAt(Last(h.ws[x].run), j.id, j.startTime, h.turns[m].now)
  {
    var k := CallOrigin(s, h, n, i);
    var d;
    m, d, j := DrainBehindCancel(s, h, n, k);
    cancelled := h.ws[n + 1].run.fs[k].job;
    HistoryGrows(s, h, n, n + 1);
    StaysDrained(s, h, m, n, d, k, j);
  }

  // With either gate closed, as in observe mode, nothing ever reaches the cluster.
  lemma {:induction false} ObserveModeTouchesNothing(s: Setup, h: History, n: nat)
    requires IsHistory(s, h) && n <= |h.turns| && !(s.wiring.live && s.wiring.enforce)
    ensures h.ws[n].calls == []
  {
    if n > 0 {
      ObserveModeTouchesNothing(s, h, n - 1);
      if h.ws[n].calls != [] {
        var k := CallOrigin(s, h, n - 1, 0);
        assert false;
      }
    }
  }
}
