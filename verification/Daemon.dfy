// The daemon's cycle: list the jobs, sample their nodes, decide for every job
// whether its evidence can be attributed to it at all, observe and evaluate the
// ones for which it can, act on what was found, and feed a drain that succeeded
// back to the engine.
module Daemon {
  import opened Telemetry
  import opened Policy
  import opened Runs
  import opened Actions

  // What the two sources answer. Telemetry is sampled for a set of nodes; a
  // failure of some of them leaves the samples of the others.
  datatype Listing = Listed(jobs: seq<Job>) | ListFailed
  datatype Scrape = Scraped(samples: seq<Sample>) | ScrapeFailed
  datatype Turn = Turn(listing: Listing, scrape: set<string> -> Scrape, now: Time)

  datatype Setup = Setup(rules: Rules, wiring: Wiring, perNode: bool, localNode: string)

  // The engine's history and the calls that reached the cluster.
  datatype World = World(run: Run, calls: seq<Call>)

  // ---- Which jobs, on which evidence ----

  function Occurrences(nodes: seq<string>, n: string): nat {
    if nodes == [] then 0 else Occurrences(nodes[..|nodes| - 1], n) + if nodes[|nodes| - 1] == n then 1 else 0
  }

  // How often node n is named by running GPU jobs.
  function Load(jobs: seq<Job>, n: string): nat {
    if jobs == [] then 0
    else
      var last := jobs[|jobs| - 1];
      Load(jobs[..|jobs| - 1], n) + if last.gpuCount == 0 then 0 else Occurrences(last.nodes, n)
  }

  predicate Considered(s: Setup, j: Job) {
    j.gpuCount != 0 && (s.perNode ==> s.localNode in j.nodes)
  }

  function InScope(s: Setup, jobs: seq<Job>): seq<Job> {
    if jobs == [] then []
    else
      var last := jobs[|jobs| - 1];
      InScope(s, jobs[..|jobs| - 1]) + if Considered(s, last) then [last] else []
  }

  function NodesOf(jobs: seq<Job>): set<string> {
    set j, n | j in jobs && n in j.nodes :: n
  }

  function OnNode(samples: seq<Sample>, n: string): seq<Sample> {
    if samples == [] then []
    else
      var last := samples[|samples| - 1];
      OnNode(samples[..|samples| - 1], n) + if last.node == n then [last] else []
  }

  function OnNodes(samples: seq<Sample>, nodes: seq<string>): seq<Sample> {
    if nodes == [] then [] else OnNodes(samples, nodes[..|nodes| - 1]) + OnNode(samples, nodes[|nodes| - 1])
  }

  lemma {:induction false} OnNodeMembers(samples: seq<Sample>, n: string)
    ensures forall s :: s in OnNode(samples, n) <==> s in samples && s.node == n
  {
    if samples != [] {
      var rest, last := samples[..|samples| - 1], samples[|samples| - 1];
      assert samples == rest + [last];
      assert forall s :: s in samples <==> s in rest || s == last;
      OnNodeMembers(rest, n);
    }
  }

  lemma {:induction false} OnNodesMembers(samples: seq<Sample>, nodes: seq<string>)
    ensures forall s :: s in OnNodes(samples, nodes) <==> s in samples && s.node in nodes
  {
    if nodes != [] {
      var rest, last := nodes[..|nodes| - 1], nodes[|nodes| - 1];
      assert nodes == rest + [last];
      assert forall n :: n in nodes <==> n in rest || n == last;
      OnNodesMembers(samples, rest);
      OnNodeMembers(samples, last);
    }
  }

  predicate Sampled(samples: seq<Sample>, n: string) {
    exists s :: s in samples && s.node == n
  }

  predicate Misattributed(j: Job, own: seq<Sample>) {
    exists s :: s in own && s.jobs != [] && j.id !in s.jobs
  }

  // What becomes of a job in scope.
  datatype Fate = Shared | Unsampled | Partial | Conflicting | Judged

  predicate OnSharedNode(jobs: seq<Job>, j: Job) {
    exists n :: n in j.nodes && 1 < Load(jobs, n)
  }

  predicate Unseen(samples: seq<Sample>, j: Job) {
    forall n :: n in j.nodes ==> !Sampled(samples, n)
  }

  predicate FullySeen(samples: seq<Sample>, j: Job) {
    forall n :: n in j.nodes ==> Sampled(samples, n)
  }

  function FateOf(jobs: seq<Job>, samples: seq<Sample>, j: Job): Fate {
    if OnSharedNode(jobs, j) then Shared
    else if Unseen(samples, j) then Unsampled
    else if !FullySeen(samples, j) then Partial
    else if Misattributed(j, OnNodes(samples, j.nodes)) then Conflicting
    else Judged
  }

  // ---- What the engine is told ----

  function JobOps(jobs: seq<Job>, samples: seq<Sample>, j: Job, now: Time): seq<Op> {
    if FateOf(jobs, samples, j) == Judged then [Observing(j, OnNodes(samples, j.nodes), now), Evaluating(j, now)]
    else [Dropping(j.id)]
  }

  function SettleOps(jobs: seq<Job>, samples: seq<Sample>, scope: seq<Job>, now: Time): seq<Op> {
    if scope == [] then []
    else SettleOps(jobs, samples, scope[..|scope| - 1], now) + JobOps(jobs, samples, scope[|scope| - 1], now)
  }

  function Active(jobs: seq<Job>): set<string> {
    set j | j in jobs :: j.id
  }

  function DidAll(c: Rules, run: Run, ops: seq<Op>): (longer: Run)
    requires Started(run)
    ensures Started(longer) && |longer.ops| == |run.ops| + |ops|
  {
    if ops == [] then run else Did(c, DidAll(c, run, ops[..|ops| - 1]), ops[|ops| - 1])
  }

  // What the evaluations among the operations reported, in order.
  function Reports(ops: seq<Op>, fs: seq<Finding>): seq<Finding>
    requires |ops| == |fs|
  {
    if ops == [] then []
    else
      Reports(ops[..|ops| - 1], fs[..|ops| - 1]) + if ops[|ops| - 1].Evaluating? then [fs[|ops| - 1]] else []
  }

  // ---- What is done about it ----

  datatype Done = Done(calls: seq<Call>, confirms: seq<Op>)

  // A drain is confirmed when it was asked for and did not fail.
  predicate Confirmable(f: Finding, e: Effect) {
    e.ok && f.verdict == Drain && !f.drainConfirmed && e.outcome != Noop
  }

  function ActOn(w: Wiring, done: Done, f: Finding, now: Time): Done {
    if f.verdict.Below(Alert) then done
    else
      var e := Handled(w, done.calls, f);
      Done(e.calls, if Confirmable(f, e) then done.confirms + [Confirming(f.job, now)] else done.confirms)
  }

  function Act(w: Wiring, calls: seq<Call>, findings: seq<Finding>, now: Time): Done {
    if findings == [] then Done(calls, [])
    else ActOn(w, Act(w, calls, findings[..|findings| - 1], now), findings[|findings| - 1], now)
  }

  // ---- One cycle ----

  predicate Started(run: Run) {
    |run.ms| == |run.ops| + 1 && |run.fs| == |run.ops|
  }

  function SettledOps(s: Setup, jobs: seq<Job>, samples: seq<Sample>, now: Time): seq<Op> {
    [Forgetting(Active(jobs))] + SettleOps(jobs, samples, InScope(s, jobs), now)
  }

  // What was reported since the run had base operations.
  function ReportsSince(run: Run, base: nat): seq<Finding>
    requires base <= |run.ops| == |run.fs|
  {
    Reports(run.ops[base..], run.fs[base..])
  }

  // The world after the jobs are settled, before anything is done about them.
  function ActedOn(s: Setup, calls: seq<Call>, base: nat, settled: Run, now: Time): World
    requires Started(settled) && base <= |settled.ops|
  {
    var done := Act(s.wiring, calls, ReportsSince(settled, base), now);
    World(DidAll(s.rules, settled, done.confirms), done.calls)
  }

  function Turned(s: Setup, w: World, turn: Turn): (w': World)
    requires Started(w.run)
    ensures Started(w'.run)
  {
    if turn.listing.ListFailed? then w
    else
      var jobs := turn.listing.jobs;
      match turn.scrape(NodesOf(InScope(s, jobs)))
      case ScrapeFailed => World(DidAll(s.rules, w.run, [Forgetting(Active(jobs))]), w.calls)
      case Scraped(samples) =>
        ActedOn(s, w.calls, |w.run.ops|, DidAll(s.rules, w.run, SettledOps(s, jobs, samples, turn.now)), turn.now)
  }

  // The cycle gets as far as judging jobs.
  predicate Succeeds(s: Setup, turn: Turn) {
    turn.listing.Listed? && turn.scrape(NodesOf(InScope(s, turn.listing.jobs))).Scraped?
  }

  // The run after the operations, seen from outside.
  ghost predicate Extends(c: Rules, run: Run, ops: seq<Op>, longer: Run) {
    && IsRun(c, longer)
    && longer.ops == run.ops + ops
    && run.ms <= longer.ms && run.fs <= longer.fs
  }

  lemma {:induction false} DidAllExtends(c: Rules, run: Run, ops: seq<Op>)
    requires IsRun(c, run)
    ensures Extends(c, run, ops, DidAll(c, run, ops))
  {
    if ops == [] {
      assert run.ops + [] == run.ops;
    } else {
      var n := |ops| - 1;
      DidAllExtends(c, run, ops[..n]);
      DidIsRun(c, DidAll(c, run, ops[..n]), ops[n]);
      assert run.ops + ops == run.ops + ops[..n] + [ops[n]];
    }
  }
}
