// From the daemon's inputs to the evidence behind a cancellation: a daemon whose
// clock does not go back and whose telemetry is fresh drives its engine in the
// way on which the theorems about evidence rest.
module EndToEnd {
  import opened Telemetry
  import opened Policy
  import opened Runs
  import opened Ladder
  import opened Window
  import opened Contiguity
  import opened Daemon
  import opened Safety
  import Attribution
  import Dcgm
  import Signatures

  ghost predicate ClockRuns(h: History) {
    forall m, n :: 0 <= m <= n < |h.turns| ==> h.turns[m].now <= h.turns[n].now
  }

  // The turn judged this job as that incarnation: what the engine reads of the job
  // is as it is in j, and its own samples are neither from the future nor nearly a
  // window old.
  ghost predicate Steadfast(s: Setup, turn: Turn, k: Job, j: Job)
    requires JudgedIn(s, turn, k)
  {
    && Alike(s.rules, k, j)
    && FreshStamps(s.rules.t, OnNodes(SamplesOf(s, turn), k.nodes), turn.now)
  }

  // The clock does not go back, and every turn that judged this incarnation of the
  // job was given fresh samples and unchanged facts about it. Nothing is asked of
  // other jobs, other nodes, or other incarnations.
  ghost predicate Orderly(s: Setup, h: History, j: Job) {
    && ClockRuns(h)
    && forall n, k {:trigger JudgedIn(s, h.turns[n], k)} :: 0 <= n < |h.turns| && JudgedIn(s, h.turns[n], k) ==>
         k.id == j.id && k.startTime == j.startTime ==> Steadfast(s, h.turns[n], k, j)
  }

  ghost predicate OrderlyFor(s: Setup, h: History, id: string) {
    forall n, j {:trigger JudgedIn(s, h.turns[n], j)} :: 0 <= n < |h.turns| && JudgedIn(s, h.turns[n], j) && j.id == id ==> Orderly(s, h, j)
  }

  // Operation i of the engine, as an operation of the turn it was done in.
  lemma Origin(s: Setup, h: History, n: nat, i: nat) returns (m: nat)
    requires IsHistory(s, h) && n <= |h.turns| && 0 < i < |h.ws[n].run.ops|
    ensures m < n && TurnOp(s, h, m, i) && h.ws[m + 1].run.ops <= h.ws[n].run.ops
  {
    m := TurnOf(s, h, n, i);
    OpOrigin(s, h, m, i);
    HistoryGrows(s, h, m + 1, n);
  }

  lemma FirstOp(s: Setup, h: History, n: nat)
    requires IsHistory(s, h) && n <= |h.turns|
    ensures |h.ws[n].run.ops| > 0 && h.ws[n].run.ops[0] == Allowing(h.sigs)
  {
    HistoryGrows(s, h, 0, n);
    assert h.ws[0].run.ops == [Allowing(h.sigs)];
  }

  // Every operation on the job was done with it as it is, at the time of its turn.
  lemma OnTime(s: Setup, h: History, n: nat, j: Job, i: nat) returns (m: nat)
    requires IsHistory(s, h) && Orderly(s, h, j) && n <= |h.turns|
    requires i < |h.ws[n].run.ops| && On(h.ws[n].run.ops[i], j.id, j.startTime)
    ensures m < n && |h.ws[m].run.ops| <= i < |h.ws[m + 1].run.ops|
    ensures TimeOf(h.ws[n].run.ops[i]) == h.turns[m].now && Alike(s.rules, h.ws[n].run.ops[i].j, j)
  {
    FirstOp(s, h, n);
    m := Origin(s, h, n, i);
    assert JudgedIn(s, h.turns[m], h.ws[n].run.ops[i].j);
  }

  lemma Earlier(s: Setup, h: History, n: nat, j: Job, i: nat, k: nat)
    requires IsHistory(s, h) && Orderly(s, h, j) && n <= |h.turns| && i < k < |h.ws[n].run.ops|
    requires On(h.ws[n].run.ops[i], j.id, j.startTime) && On(h.ws[n].run.ops[k], j.id, j.startTime)
    ensures TimeOf(h.ws[n].run.ops[i]) <= TimeOf(h.ws[n].run.ops[k])
  {
    var a := OnTime(s, h, n, j, i);
    var b := OnTime(s, h, n, j, k);
    if b < a {
      HistoryGrows(s, h, b + 1, a);
      assert false;
    }
  }

  lemma PairedInTurn(s: Setup, h: History, n: nat, j: Job, i: nat)
    requires IsHistory(s, h) && n <= |h.turns| && i < |h.ws[n].run.ops|
    ensures Paired(h.ws[n].run, j, i)
  {
    FirstOp(s, h, n);
    if i > 0 {
      var m := Origin(s, h, n, i);
    }
  }

  lemma FreshInTurn(s: Setup, h: History, n: nat, j: Job, i: nat)
    requires IsHistory(s, h) && Orderly(s, h, j) && n <= |h.turns| && i < |h.ws[n].run.ops|
    requires Delivers(h.ws[n].run.ops[i], j.id, j.startTime)
    ensures FreshStamps(s.rules.t, h.ws[n].run.ops[i].samples, h.ws[n].run.ops[i].now)
  {
    FirstOp(s, h, n);
    var m := Origin(s, h, n, i);
    assert JudgedIn(s, h.turns[m], h.ws[n].run.ops[i].j);
  }

  // The daemon drives its engine properly.
  lemma HistoryIsDriven(s: Setup, h: History, n: nat, j: Job)
    requires IsHistory(s, h) && Orderly(s, h, j) && s.rules.t.Valid() && n <= |h.turns|
    ensures Driven(s.rules, h.ws[n].run, j)
  {
    var run := h.ws[n].run;
    HistoryGrows(s, h, n, n);
    assert ClockForward(run, j.id, j.startTime) by {
      forall i, k | 0 <= i < k < |run.ops| && On(run.ops[i], j.id, j.startTime) && On(run.ops[k], j.id, j.startTime)
        ensures TimeOf(run.ops[i]) <= TimeOf(run.ops[k])
      {
        Earlier(s, h, n, j, i, k);
      }
    }
    forall i | 0 <= i < |run.ops| ensures On(run.ops[i], j.id, j.startTime) ==> Alike(s.rules, run.ops[i].j, j) {
      if On(run.ops[i], j.id, j.startTime) {
        var m := OnTime(s, h, n, j, i);
      }
    }
    forall i | 0 <= i < |run.ops| ensures Paired(run, j, i) {
      PairedInTurn(s, h, n, j, i);
    }
    forall i | 0 <= i < |run.ops| && Delivers(run.ops[i], j.id, j.startTime) ensures FreshStamps(s.rules.t, run.ops[i].samples, run.ops[i].now) {
      FreshInTurn(s, h, n, j, i);
    }
  }

  // A cancellation that reaches the cluster rests on the drain of all nodes of
  // the job, at least one window earlier, with its record confirmed at every turn
  // boundary since, and on contiguous evidence of a breach on every node from one
  // window before that drain until now: every counted sample delivered to its
  // record in that time was readable and below the threshold, and no node went
  // unobserved for longer than the gap.
  lemma CancelHasEvidence(s: Setup, h: History, n: nat, i: nat) returns (m: nat, drained: Job, j: Job, k: nat)
    requires IsHistory(s, h) && s.rules.t.Valid() && n < |h.turns|
    requires |h.ws[n].calls| <= i < |h.ws[n + 1].calls| && h.ws[n + 1].calls[i].CancelCall?
    requires OrderlyFor(s, h, h.ws[n + 1].calls[i].job)
    ensures m < n && h.turns[m].now <= h.turns[n].now - s.rules.t.window
    ensures j.id == h.ws[n + 1].calls[i].job && JudgedIn(s, h.turns[n], j)
    ensures JudgedIn(s, h.turns[m], drained) && Alike(s.rules, drained, j) && DrainedDuring(h, m, drained)
    ensures forall x :: m < x <= n ==> Started(h.ws[x].run) && DrainedAt(Last(h.ws[x].run), j.id, j.startTime, h.turns[m].now)
    ensures IsRun(s.rules, h.ws[n + 1].run) && |h.ws[n].run.ops| < k < |h.ws[n + 1].run.ops|
    ensures h.ws[n + 1].run.ops[k] == Evaluating(j, h.turns[n].now) && h.ws[n + 1].run.fs[k].verdict == Cancel
    ensures Contiguous(s.rules.t, j, Counted(s.rules, h.ws[n + 1].run, k, j), h.turns[m].now, h.turns[n].now)
  {
    HistoryGrows(s, h, n, n + 1);
    var run := h.ws[n + 1].run;
    k := CallOrigin(s, h, n, i);
    j := run.fs[k].job;
    var d;
    m, d, drained := DrainBehindCancel(s, h, n, k);
    assert JudgedIn(s, h.turns[m], drained);
    StaysDrained(s, h, m, n, d, k, drained);
    HistoryIsDriven(s, h, n + 1, j);
    var c, D := CancelIsSupported(s.rules, run, k, j);
    assert DrainedAt(run.ms[k], j.id, j.startTime, D) && DrainedAt(run.ms[k], j.id, j.startTime, h.turns[m].now);
  }

  // ---- A daemon for a single node ----

  // It delivers, judges and confirms only GPU jobs that hold its node.
  lemma OnlyLocalJobs(s: Setup, h: History, n: nat, i: nat)
    requires IsHistory(s, h) && n <= |h.turns| && s.perNode && i < |h.ws[n].run.ops|
    requires var op := h.ws[n].run.ops[i]; op.Observing? || op.Evaluating? || op.Confirming?
    ensures h.ws[n].run.ops[i].j.gpuCount != 0 && s.localNode in h.ws[n].run.ops[i].j.nodes
  {
    FirstOp(s, h, n);
    var m := Origin(s, h, n, i);
    Attribution.ScopeMembers(s, h.turns[m].listing.jobs);
  }

  // And it calls the cluster only about listed jobs that do.
  lemma OnlyLocalCalls(s: Setup, h: History, n: nat, i: nat) returns (j: Job)
    requires IsHistory(s, h) && n < |h.turns| && s.perNode && |h.ws[n].calls| <= i < |h.ws[n + 1].calls|
    ensures h.turns[n].listing.Listed? && j in h.turns[n].listing.jobs && j.id == h.ws[n + 1].calls[i].job
    ensures j.gpuCount != 0 && s.localNode in j.nodes
  {
    var k := CallOrigin(s, h, n, i);
    j := h.ws[n + 1].run.fs[k].job;
    Attribution.ScopeMembers(s, h.turns[n].listing.jobs);
  }

  // A turn whose sources answer judges a listed job exactly if it holds GPUs, holds
  // the daemon's node if the daemon is for one, has its nodes to itself, was
  // sampled on each of them, and is not disowned by a label.
  lemma JudgedExactlyWhen(s: Setup, turn: Turn, a: nat)
    requires Succeeds(s, turn) && a < |turn.listing.jobs|
    ensures var jobs, samples := turn.listing.jobs, SamplesOf(s, turn);
      var j := jobs[a];
      JudgedIn(s, turn, j) <==>
        && j.gpuCount != 0 && (s.perNode ==> s.localNode in j.nodes)
        && j.nodes != [] && Attribution.NoneTwice(j.nodes)
        && (forall b, n :: 0 <= b < |jobs| && b != a && jobs[b].gpuCount != 0 && n in j.nodes ==> n !in jobs[b].nodes)
        && (forall n :: n in j.nodes ==> exists x :: x in samples && x.node == n)
        && (forall x :: x in samples && x.node in j.nodes ==> x.jobs == [] || j.id in x.jobs)
  {
    Attribution.ScopeMembers(s, turn.listing.jobs);
    if turn.listing.jobs[a].gpuCount != 0 {
      Attribution.FatesMean(turn.listing.jobs, SamplesOf(s, turn), a);
      assert forall n :: Attribution.Speaks(SamplesOf(s, turn), n) <==> exists x :: x in SamplesOf(s, turn) && x.node == n;
    }
  }

  // ---- Telemetry that cannot see processes ----

  ghost predicate Blind(s: Setup, turn: Turn) {
    Succeeds(s, turn) ==> forall x :: x in SamplesOf(s, turn) ==> !x.pidsKnown
  }

  lemma BlindHistoryIsBlind(s: Setup, h: History, n: nat, id: string)
    requires IsHistory(s, h) && n <= |h.turns| && forall m :: 0 <= m < |h.turns| ==> Blind(s, h.turns[m])
    ensures Signatures.ProcessBlind(h.ws[n].run, id)
  {
    var ops := h.ws[n].run.ops;
    FirstOp(s, h, n);
    forall i | 0 <= i < |ops| && ops[i].Observing? ensures forall x :: x in ops[i].samples ==> !x.pidsKnown {
      var m := Origin(s, h, n, i);
      assert Blind(s, h.turns[m]);
      OnNodesMembers(SamplesOf(s, h.turns[m]), ops[i].j.nodes);
    }
  }

  // A daemon fed only by a source that cannot read process lists never touches
  // the cluster, whatever its mode, its stages and its telemetry.
  lemma {:induction false} BlindDaemonTouchesNothing(s: Setup, h: History, n: nat)
    requires IsHistory(s, h) && n <= |h.turns| && forall m :: 0 <= m < |h.turns| ==> Blind(s, h.turns[m])
    ensures h.ws[n].calls == []
  {
    if n > 0 {
      BlindDaemonTouchesNothing(s, h, n - 1);
      if h.ws[n].calls != [] {
        var k := CallOrigin(s, h, n - 1, 0);
        HistoryGrows(s, h, n - 1, n);
        BlindHistoryIsBlind(s, h, n, h.ws[n].run.fs[k].job.id);
        Signatures.ProcessBlindStopsAtAlert(s.rules, h.ws[n].run, k);
        assert false;
      }
    }
  }

  ghost predicate FromDcgm(x: Sample) {
    exists sc, page, gpu :: Dcgm.MadeFrom(sc, page, gpu, x)
  }

  // In particular, one fed by dcgm-exporter.
  lemma DcgmDaemonTouchesNothing(s: Setup, h: History, n: nat)
    requires IsHistory(s, h) && n <= |h.turns|
    requires forall m, x :: 0 <= m < |h.turns| && Succeeds(s, h.turns[m]) && x in SamplesOf(s, h.turns[m]) ==> FromDcgm(x)
    ensures h.ws[n].calls == []
  {
    forall m | 0 <= m < |h.turns| ensures Blind(s, h.turns[m]) {
      if Succeeds(s, h.turns[m]) {
        forall x | x in SamplesOf(s, h.turns[m]) ensures !x.pidsKnown {
          assert FromDcgm(x);
        }
      }
    }
    BlindDaemonTouchesNothing(s, h, n);
  }
}
