// In which order a turn acts, and what the cluster answers. Jobs are taken as they
// are listed, so the calls about a job listed earlier come first.
module Order {
  import opened Telemetry
  import opened Policy
  import opened Runs
  import opened Actions
  import opened Daemon
  import opened Safety

  ghost predicate Rises(at: seq<nat>) {
    forall a, b :: 0 <= a < b < |at| ==> at[a] < at[b]
  }

  ghost predicate NeverFalls(at: seq<nat>) {
    forall a, b :: 0 <= a < b < |at| ==> at[a] <= at[b]
  }

  // Where in the list the jobs in scope stand.
  ghost predicate Listing(jobs: seq<Job>, scope: seq<Job>, at: seq<nat>) {
    |at| == |scope| && forall i :: 0 <= i < |at| ==> at[i] < |jobs| && jobs[at[i]] == scope[i]
  }

  // The scope keeps the order of the list.
  lemma {:induction false} ScopeInOrder(s: Setup, jobs: seq<Job>) returns (at: seq<nat>)
    ensures Listing(jobs, InScope(s, jobs), at) && Rises(at)
  {
    at := [];
    if jobs != [] {
      var n := |jobs| - 1;
      at := ScopeInOrder(s, jobs[..n]);
      if Considered(s, jobs[n]) {
        at := at + [n];
      }
    }
  }

  // Where in the scope each operation has its job.
  ghost predicate Places(ops: seq<Op>, scope: seq<Job>, at: seq<nat>) {
    && |at| == |ops|
    && (forall k :: 0 <= k < |ops| ==> at[k] < |scope|)
    && forall k :: 0 <= k < |ops| && ops[k].Evaluating? ==> ops[k].j == scope[at[k]]
  }

  // The evaluations keep the order of the scope.
  lemma {:induction false} SettleInOrder(jobs: seq<Job>, samples: seq<Sample>, scope: seq<Job>, now: Time) returns (at: seq<nat>)
    ensures Places(SettleOps(jobs, samples, scope, now), scope, at) && NeverFalls(at)
  {
    at := [];
    if scope != [] {
      var n := |scope| - 1;
      at := SettleInOrder(jobs, samples, scope[..n], now);
      at := at + seq(|JobOps(jobs, samples, scope[n], now)|, _ => n);
    }
  }

  // Which operation reported each finding.
  ghost predicate Reported(ops: seq<Op>, fs: seq<Finding>, at: seq<nat>)
    requires |ops| == |fs|
  {
    && |at| == |Reports(ops, fs)|
    && forall i :: 0 <= i < |at| ==> at[i] < |ops| && ops[at[i]].Evaluating? && fs[at[i]] == Reports(ops, fs)[i]
  }

  // The findings keep the order of the evaluations.
  lemma {:induction false} ReportsInOrder(ops: seq<Op>, fs: seq<Finding>) returns (at: seq<nat>)
    requires |ops| == |fs|
    ensures Reported(ops, fs, at) && Rises(at)
  {
    at := [];
    if ops != [] {
      var n := |ops| - 1;
      at := ReportsInOrder(ops[..n], fs[..n]);
      if ops[n].Evaluating? {
        at := at + [n];
      }
    }
  }

  // Which finding each call since the first ones answers.
  ghost predicate Answering(findings: seq<Finding>, calls: seq<Call>, first: nat, at: seq<nat>) {
    && first + |at| == |calls|
    && forall i :: 0 <= i < |at| ==> at[i] < |findings| && Asks(findings[at[i]], calls[first + i])
  }

  // The calls keep the order of the findings they answer.
  lemma {:induction false} CallsInOrder(w: Wiring, calls: seq<Call>, findings: seq<Finding>, now: Time) returns (at: seq<nat>)
    ensures Answering(findings, Act(w, calls, findings, now).calls, |calls|, at) && NeverFalls(at)
  {
    at := [];
    if findings != [] {
      var n := |findings| - 1;
      var before := Act(w, calls, findings[..n], now);
      at := CallsInOrder(w, calls, findings[..n], now);
      if !findings[n].verdict.Below(Alert) {
        var e := Handled(w, before.calls, findings[n]);
        var from := OneFinding(w, before.calls, findings[n]);
        at := at + seq(|e.calls| - |before.calls|, _ => n);
      }
    }
  }

  // The finding of this operation asks for this call.
  ghost predicate AskedAt(run: Run, k: nat, call: Call) {
    k < |run.ops| == |run.fs| && run.ops[k].Evaluating? && Asks(run.fs[k], call)
  }

  // The evaluations that two calls answer, in order.
  lemma AskedInOrder(w: Wiring, run: Run, base: nat, calls: seq<Call>, now: Time, all: seq<Call>, i: nat, k: nat) returns (x: nat, y: nat)
    requires base <= |run.ops| == |run.fs| && all == Act(w, calls, ReportsSince(run, base), now).calls && |calls| <= i <= k < |all|
    ensures x <= y && AskedAt(run, base + x, all[i]) && AskedAt(run, base + y, all[k])
  {
    var answered := CallsInOrder(w, calls, ReportsSince(run, base), now);
    var reported := ReportsInOrder(run.ops[base..], run.fs[base..]);
    var p, q := answered[i - |calls|], answered[k - |calls|];
    assert p <= q;
    x, y := reported[p], reported[q];
    assert AskedAt(run, base + x, all[i]);
    assert AskedAt(run, base + y, all[k]);
  }

  // The place in the list of the job that a call of the turn is about.
  ghost predicate About(s: Setup, h: History, n: nat, i: nat, a: nat)
    requires n < |h.turns| && |h.ws| == |h.turns| + 1 && i < |h.ws[n + 1].calls|
  {
    && h.turns[n].listing.Listed? && a < |h.turns[n].listing.jobs|
    && JudgedIn(s, h.turns[n], h.turns[n].listing.jobs[a])
    && h.turns[n].listing.jobs[a].id == h.ws[n + 1].calls[i].job
  }

  // The operation among those of the scope that evaluated the job of a call.
  ghost predicate EvaluatesAt(ops: seq<Op>, s: Setup, turn: Turn, r: nat, call: Call) {
    0 < r <= |ops| && ops[r - 1].Evaluating? && JudgedIn(s, turn, ops[r - 1].j) && ops[r - 1].j.id == call.job
  }

  lemma JudgedPlace(s: Setup, w: World, turn: Turn, samples: seq<Sample>, settled: Run, w': World, r: nat, call: Call)
    requires Succeeds(s, turn) && samples == SamplesOf(s, turn)
    requires Halves(s, w, turn.listing.jobs, samples, turn.now, settled, w') && AskedAt(settled, |w.run.ops| + r, call)
    ensures EvaluatesAt(SettleOps(turn.listing.jobs, samples, InScope(s, turn.listing.jobs), turn.now), s, turn, r, call)
  {
    var scope := InScope(s, turn.listing.jobs);
    var ops := SettleOps(turn.listing.jobs, samples, scope, turn.now);
    assert settled.ops[|w.run.ops| + r] == ([Forgetting(Active(turn.listing.jobs))] + ops)[r];
    SettleOpsShape(turn.listing.jobs, samples, scope, turn.now, r - 1);
    FindingIsAbout(s.rules, settled, |w.run.ops| + r);
  }

  // Two operations in order are about jobs that are listed in order.
  lemma ListedInOrder(s: Setup, jobs: seq<Job>, samples: seq<Sample>, now: Time, x: nat, y: nat) returns (a: nat, b: nat)
    requires var ops := SettleOps(jobs, samples, InScope(s, jobs), now); x <= y < |ops| && ops[x].Evaluating? && ops[y].Evaluating?
    ensures var ops := SettleOps(jobs, samples, InScope(s, jobs), now); a <= b < |jobs| && jobs[a] == ops[x].j && jobs[b] == ops[y].j
  {
    var settles := SettleInOrder(jobs, samples, InScope(s, jobs), now);
    var scope := ScopeInOrder(s, jobs);
    a, b := scope[settles[x]], scope[settles[y]];
  }

  // Of two calls of a turn, the first is about the job listed first.
  lemma CallsFollowListing(s: Setup, h: History, n: nat, i: nat, k: nat) returns (a: nat, b: nat)
    requires IsHistory(s, h) && n < |h.turns| && |h.ws[n].calls| <= i <= k < |h.ws[n + 1].calls|
    ensures About(s, h, n, i, a) && About(s, h, n, k, b) && a <= b
  {
    HistoryGrows(s, h, n, n);
    assert TurnedAt(s, h, n);
    var samples, settled := TurnHalves(s, h.ws[n], h.turns[n]);
    a, b := TurnFollowsListing(s, h.ws[n], h.turns[n], samples, settled, h.ws[n + 1], i, k);
  }

  lemma TurnFollowsListing(s: Setup, w: World, turn: Turn, samples: seq<Sample>, settled: Run, w': World, i: nat, k: nat)
    returns (a: nat, b: nat)
    requires Succeeds(s, turn) && samples == SamplesOf(s, turn)
    requires Halves(s, w, turn.listing.jobs, samples, turn.now, settled, w') && |w.calls| <= i <= k < |w'.calls|
    ensures a <= b < |turn.listing.jobs|
    ensures JudgedIn(s, turn, turn.listing.jobs[a]) && turn.listing.jobs[a].id == w'.calls[i].job
    ensures JudgedIn(s, turn, turn.listing.jobs[b]) && turn.listing.jobs[b].id == w'.calls[k].job
  {
    var base := |w.run.ops|;
    var x, y := AskedInOrder(s.wiring, settled, base, w.calls, turn.now, w'.calls, i, k);
    JudgedPlace(s, w, turn, samples, settled, w', x, w'.calls[i]);
    JudgedPlace(s, w, turn, samples, settled, w', y, w'.calls[k]);
    a, b := ListedInOrder(s, turn.listing.jobs, samples, turn.now, x - 1, y - 1);
  }

  // ---- What the calls were answered ----

  ghost predicate Answered(w: Wiring, calls: seq<Call>) {
    forall i :: 0 <= i < |calls| ==> calls[i].ok == w.answers(i)
  }

  lemma {:induction false} DrainAnswered(w: Wiring, calls: seq<Call>, job: string, nodes: seq<string>)
    requires Answered(w, calls)
    ensures Answered(w, DrainNodes(w, calls, job, nodes).calls)
  {
    if nodes != [] {
      DrainAnswered(w, calls, job, nodes[..|nodes| - 1]);
    }
  }

  lemma {:induction false} ActAnswered(w: Wiring, calls: seq<Call>, findings: seq<Finding>, now: Time)
    requires Answered(w, calls)
    ensures Answered(w, Act(w, calls, findings, now).calls)
  {
    if findings != [] {
      var rest, f := findings[..|findings| - 1], findings[|findings| - 1];
      ActAnswered(w, calls, rest, now);
      DrainAnswered(w, Act(w, calls, rest, now).calls, f.job.id, f.job.nodes);
    }
  }

  // In every history, call number i was given the i-th answer of the cluster, and
  // no answer was skipped.
  lemma {:induction false} CallsAreAnswered(s: Setup, h: History, n: nat)
    requires IsHistory(s, h) && n <= |h.turns|
    ensures forall i :: 0 <= i < |h.ws[n].calls| ==> h.ws[n].calls[i].ok == s.wiring.answers(i)
  {
    if n > 0 {
      CallsAreAnswered(s, h, n - 1);
      HistoryGrows(s, h, n - 1, n - 1);
      assert TurnedAt(s, h, n - 1);
      var samples, settled := TurnHalves(s, h.ws[n - 1], h.turns[n - 1]);
      if Succeeds(s, h.turns[n - 1]) {
        assert Answered(s.wiring, h.ws[n - 1].calls);
        ActAnswered(s.wiring, h.ws[n - 1].calls, ReportsSince(settled, |h.ws[n - 1].run.ops|), h.turns[n - 1].now);
      }
    }
  }
}
