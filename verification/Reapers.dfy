// The daemon as it runs: one object that drives an engine and a cluster actor.
// Every cycle is proved to change both exactly as Daemon.Turned says.
module Reapers {
  import opened Telemetry
  import opened Policy
  import opened Runs
  import opened Actions
  import opened Engines
  import opened Daemon

  function Entry<V>(m: map<string, V>, key: string, none: V): V {
    if key in m then m[key] else none
  }

  method CountLoads(jobs: seq<Job>) returns (load: map<string, nat>)
    ensures forall n :: Entry(load, n, 0) == Load(jobs, n)
  {
    load := map[];
    for i := 0 to |jobs|
      invariant forall n :: Entry(load, n, 0) == Load(jobs[..i], n)
    {
      assert jobs[..i + 1][..i] == jobs[..i];
      if jobs[i].gpuCount == 0 {
        continue;
      }
      ghost var before := load;
      for k := 0 to |jobs[i].nodes|
        invariant forall n :: Entry(load, n, 0) == Entry(before, n, 0) + Occurrences(jobs[i].nodes[..k], n)
      {
        assert jobs[i].nodes[..k + 1][..k] == jobs[i].nodes[..k];
        var n := jobs[i].nodes[k];
        load := load[n := Entry(load, n, 0) + 1];
      }
      assert jobs[i].nodes[..|jobs[i].nodes|] == jobs[i].nodes;
    }
    assert jobs[..|jobs|] == jobs;
  }

  method FindScope(s: Setup, jobs: seq<Job>) returns (scope: seq<Job>, nodes: set<string>)
    ensures scope == InScope(s, jobs) && nodes == NodesOf(scope)
  {
    scope, nodes := [], {};
    for i := 0 to |jobs|
      invariant scope == InScope(s, jobs[..i]) && nodes == NodesOf(scope)
    {
      assert jobs[..i + 1][..i] == jobs[..i];
      var j := jobs[i];
      if j.gpuCount == 0 {
        continue;
      }
      if s.perNode && s.localNode !in j.nodes {
        continue;
      }
      assert forall x :: x in scope + [j] <==> x in scope || x == j;
      scope := scope + [j];
      nodes := nodes + set n | n in j.nodes;
    }
    assert jobs[..|jobs|] == jobs;
  }

  method GroupByNode(samples: seq<Sample>) returns (byNode: map<string, seq<Sample>>)
    ensures forall n :: Entry(byNode, n, []) == OnNode(samples, n)
  {
    byNode := map[];
    for i := 0 to |samples|
      invariant forall n :: Entry(byNode, n, []) == OnNode(samples[..i], n)
    {
      assert samples[..i + 1][..i] == samples[..i];
      var n := samples[i].node;
      byNode := byNode[n := Entry(byNode, n, []) + [samples[i]]];
    }
    assert samples[..|samples|] == samples;
  }

  lemma OnNodeEmpty(samples: seq<Sample>, n: string)
    ensures OnNode(samples, n) == [] <==> !Sampled(samples, n)
  {
    OnNodeMembers(samples, n);
    assert OnNode(samples, n) != [] ==> OnNode(samples, n)[0] in OnNode(samples, n);
  }

  method IsShared(load: map<string, nat>, j: Job, ghost jobs: seq<Job>) returns (shared: bool)
    requires forall n :: Entry(load, n, 0) == Load(jobs, n)
    ensures shared == OnSharedNode(jobs, j)
  {
    for i := 0 to |j.nodes|
      invariant forall n :: n in j.nodes[..i] ==> Load(jobs, n) <= 1
    {
      assert j.nodes[..i + 1] == j.nodes[..i] + [j.nodes[i]];
      if 1 < Entry(load, j.nodes[i], 0) {
        return true;
      }
    }
    assert j.nodes[..|j.nodes|] == j.nodes;
    return false;
  }

  // For how many of the nodes there is no sample.
  function Missing(samples: seq<Sample>, nodes: seq<string>): nat {
    if nodes == [] then 0
    else Missing(samples, nodes[..|nodes| - 1]) + if Sampled(samples, nodes[|nodes| - 1]) then 0 else 1
  }

  lemma {:induction false} MissingMeans(samples: seq<Sample>, nodes: seq<string>)
    ensures Missing(samples, nodes) <= |nodes|
    ensures Missing(samples, nodes) == |nodes| <==> forall n :: n in nodes ==> !Sampled(samples, n)
    ensures Missing(samples, nodes) == 0 <==> forall n :: n in nodes ==> Sampled(samples, n)
  {
    if nodes != [] {
      var rest, last := nodes[..|nodes| - 1], nodes[|nodes| - 1];
      assert nodes == rest + [last];
      assert forall n :: n in nodes <==> n in rest || n == last;
      MissingMeans(samples, rest);
    }
  }

  lemma MissingDecides(samples: seq<Sample>, j: Job)
    ensures Missing(samples, j.nodes) == |j.nodes| <==> Unseen(samples, j)
    ensures Missing(samples, j.nodes) == 0 <==> FullySeen(samples, j)
  {
    MissingMeans(samples, j.nodes);
  }

  method Gather(byNode: map<string, seq<Sample>>, nodes: seq<string>, ghost samples: seq<Sample>) returns (own: seq<Sample>, missing: nat)
    requires forall n :: Entry(byNode, n, []) == OnNode(samples, n)
    ensures own == OnNodes(samples, nodes) && missing == Missing(samples, nodes)
  {
    own, missing := [], 0;
    for i := 0 to |nodes|
      invariant own == OnNodes(samples, nodes[..i]) && missing == Missing(samples, nodes[..i])
    {
      assert nodes[..i + 1][..i] == nodes[..i];
      OnNodeEmpty(samples, nodes[i]);
      if |Entry(byNode, nodes[i], [])| == 0 {
        missing := missing + 1;
      }
      own := own + Entry(byNode, nodes[i], []);
    }
    assert nodes[..|nodes|] == nodes;
  }

  method AttributionConflict(j: Job, own: seq<Sample>) returns (conflict: bool)
    ensures conflict == Misattributed(j, own)
  {
    for i := 0 to |own|
      invariant forall s :: s in own[..i] ==> s.jobs == [] || j.id in s.jobs
    {
      assert own[..i + 1] == own[..i] + [own[i]];
      if 0 < |own[i].jobs| && j.id !in own[i].jobs {
        return true;
      }
    }
    assert own[..|own|] == own;
    return false;
  }

  method Decide(j: Job, load: map<string, nat>, byNode: map<string, seq<Sample>>, ghost jobs: seq<Job>, ghost samples: seq<Sample>)
    returns (fate: Fate, own: seq<Sample>)
    requires forall n :: Entry(load, n, 0) == Load(jobs, n)
    requires forall n :: Entry(byNode, n, []) == OnNode(samples, n)
    ensures fate == FateOf(jobs, samples, j)
    ensures fate == Judged ==> own == OnNodes(samples, j.nodes)
  {
    var shared := IsShared(load, j, jobs);
    if shared {
      return Shared, [];
    }
    var missing;
    own, missing := Gather(byNode, j.nodes, samples);
    MissingDecides(samples, j);
    if missing == |j.nodes| {
      return Unsampled, [];
    }
    if 0 < missing {
      return Partial, [];
    }
    var conflict := AttributionConflict(j, own);
    if conflict {
      return Conflicting, [];
    }
    return Judged, own;
  }

  // How many jobs in scope met each fate.
  datatype Tally = Tally(shared: nat, unsampled: nat, partial: nat, conflicting: nat, judged: nat) {
    function Add(fate: Fate): Tally {
      match fate
      case Shared => this.(shared := shared + 1)
      case Unsampled => this.(unsampled := unsampled + 1)
      case Partial => this.(partial := partial + 1)
      case Conflicting => this.(conflicting := conflicting + 1)
      case Judged => this.(judged := judged + 1)
    }

    function Of(fate: Fate): nat {
      match fate
      case Shared => shared
      case Unsampled => unsampled
      case Partial => partial
      case Conflicting => conflicting
      case Judged => judged
    }
  }

  const NONE := Tally(0, 0, 0, 0, 0)

  function TallyOf(jobs: seq<Job>, samples: seq<Sample>, scope: seq<Job>): Tally {
    if scope == [] then NONE
    else TallyOf(jobs, samples, scope[..|scope| - 1]).Add(FateOf(jobs, samples, scope[|scope| - 1]))
  }

  function Meeting(jobs: seq<Job>, samples: seq<Sample>, scope: seq<Job>, fate: Fate): seq<Job> {
    if scope == [] then []
    else
      var last := scope[|scope| - 1];
      Meeting(jobs, samples, scope[..|scope| - 1], fate) + if FateOf(jobs, samples, last) == fate then [last] else []
  }

  // The tally counts the jobs of each fate, and no job in scope is left out of
  // it or counted twice.
  lemma {:induction false} TallyCounts(jobs: seq<Job>, samples: seq<Sample>, scope: seq<Job>)
    ensures var t := TallyOf(jobs, samples, scope);
      && (forall fate {:trigger t.Of(fate)} :: t.Of(fate) == |Meeting(jobs, samples, scope, fate)|)
      && t.shared + t.unsampled + t.partial + t.conflicting + t.judged == |scope|
  {
    if scope != [] {
      TallyCounts(jobs, samples, scope[..|scope| - 1]);
      var before := TallyOf(jobs, samples, scope[..|scope| - 1]);
      forall fate ensures TallyOf(jobs, samples, scope).Of(fate) == |Meeting(jobs, samples, scope, fate)| {
        assert before.Of(fate) == |Meeting(jobs, samples, scope[..|scope| - 1], fate)|;
      }
    }
  }

  lemma OneMoreJob(ops: seq<Op>, jobs: seq<Job>, samples: seq<Sample>, scope: seq<Job>, now: Time, i: nat)
    requires i < |scope|
    ensures ops + SettleOps(jobs, samples, scope[..i], now) + JobOps(jobs, samples, scope[i], now)
         == ops + SettleOps(jobs, samples, scope[..i + 1], now)
    ensures TallyOf(jobs, samples, scope[..i + 1]) == TallyOf(jobs, samples, scope[..i]).Add(FateOf(jobs, samples, scope[i]))
  {
    assert scope[..i + 1][..i] == scope[..i];
  }

  lemma ReportsPush(ops: seq<Op>, fs: seq<Finding>, op: Op, f: Finding)
    requires |ops| == |fs|
    ensures Reports(ops + [op], fs + [f]) == Reports(ops, fs) + if op.Evaluating? then [f] else []
  {
    assert (ops + [op])[..|ops|] == ops && (fs + [f])[..|fs|] == fs;
  }

  // One more operation, and what it adds to the reports.
  lemma DidMore(c: Rules, run: Run, ops: seq<Op>, op: Op)
    requires Started(run)
    ensures var before, longer := DidAll(c, run, ops), Did(c, DidAll(c, run, ops), op);
      && DidAll(c, run, ops + [op]) == longer
      && ReportsSince(longer, |run.ops|) == ReportsSince(before, |run.ops|) + if op.Evaluating? then [longer.fs[|before.ops|]] else []
  {
    var base, before, longer := |run.ops|, DidAll(c, run, ops), Did(c, DidAll(c, run, ops), op);
    assert (ops + [op])[..|ops|] == ops;
    assert longer.ops[base..] == before.ops[base..] + [op];
    assert longer.fs[base..] == before.fs[base..] + [longer.fs[|before.ops|]];
    ReportsPush(before.ops[base..], before.fs[base..], op, longer.fs[|before.ops|]);
  }

  class Reaper {
    const engine: Engine
    const cluster: ClusterActor
    const perNode: bool
    const localNode: string
    var lastSuccess: Time

    constructor (engine: Engine, cluster: ClusterActor, perNode: bool, localNode: string)
      ensures this.engine == engine && this.cluster == cluster && this.perNode == perNode && this.localNode == localNode
      ensures lastSuccess == UNSET
    {
      this.engine := engine;
      this.cluster := cluster;
      this.perNode := perNode;
      this.localNode := localNode;
      lastSuccess := UNSET;
    }

    ghost predicate Valid()
      reads engine, engine.states.Values
    {
      engine.Valid() && Started(engine.run)
    }

    function Arrangement(): Setup {
      Setup(engine.rules, cluster.Wired(), perNode, localNode)
    }

    ghost function View(): World
      reads engine`run, cluster.controller`calls
    {
      World(engine.run, cluster.controller.calls)
    }

    ghost predicate Heard(run: Run, ops: seq<Op>)
      reads engine`run
    {
      Started(run) && engine.run == DidAll(engine.rules, run, ops)
    }

    // The engine observes and evaluates one job; ops is what it has heard since
    // the cycle began.
    method JudgeJob(j: Job, own: seq<Sample>, now: Time, ghost run: Run, ghost ops: seq<Op>) returns (f: Finding)
      requires Valid() && Heard(run, ops)
      modifies engine, engine.states.Values
      ensures Valid() && fresh(engine.states.Values - old(engine.states.Values))
      ensures Heard(run, ops + [Observing(j, own, now), Evaluating(j, now)])
      ensures ReportsSince(engine.run, |run.ops|) == ReportsSince(old(engine.run), |run.ops|) + [f]
    {
      engine.Observe(j, own, now);
      DidMore(engine.rules, run, ops, Observing(j, own, now));
      f := engine.Evaluate(j, now);
      DidMore(engine.rules, run, ops + [Observing(j, own, now)], Evaluating(j, now));
      assert ops + [Observing(j, own, now)] + [Evaluating(j, now)] == ops + [Observing(j, own, now), Evaluating(j, now)];
    }

    method DropJob(j: Job, ghost run: Run, ghost ops: seq<Op>)
      requires Valid() && Heard(run, ops)
      modifies engine
      ensures Valid() && engine.states.Values <= old(engine.states).Values
      ensures Heard(run, ops + [Dropping(j.id)])
      ensures ReportsSince(engine.run, |run.ops|) == ReportsSince(old(engine.run), |run.ops|)
    {
      DidMore(engine.rules, run, ops, Dropping(j.id));
      engine.Drop(j.id);
    }

    method SettleJob(j: Job, load: map<string, nat>, byNode: map<string, seq<Sample>>, now: Time,
                     ghost run: Run, ghost ops: seq<Op>, ghost jobs: seq<Job>, ghost samples: seq<Sample>)
      returns (fate: Fate, found: seq<Finding>)
      requires Valid() && Heard(run, ops)
      requires forall n :: Entry(load, n, 0) == Load(jobs, n)
      requires forall n :: Entry(byNode, n, []) == OnNode(samples, n)
      modifies engine, engine.states.Values
      ensures Valid() && fresh(engine.states.Values - old(engine.states.Values))
      ensures fate == FateOf(jobs, samples, j)
      ensures Heard(run, ops + JobOps(jobs, samples, j, now))
      ensures ReportsSince(engine.run, |run.ops|) == ReportsSince(old(engine.run), |run.ops|) + found
    {
      var own;
      fate, own := Decide(j, load, byNode, jobs, samples);
      if fate == Judged {
        var f := JudgeJob(j, own, now, run, ops);
        found := [f];
      } else {
        DropJob(j, run, ops);
        found := [];
      }
    }

    method SettleScope(scope: seq<Job>, load: map<string, nat>, byNode: map<string, seq<Sample>>, now: Time,
                       ghost run: Run, ghost ops: seq<Op>, ghost jobs: seq<Job>, ghost samples: seq<Sample>)
      returns (findings: seq<Finding>, tally: Tally)
      requires Valid() && Heard(run, ops) && ReportsSince(engine.run, |run.ops|) == []
      requires forall n :: Entry(load, n, 0) == Load(jobs, n)
      requires forall n :: Entry(byNode, n, []) == OnNode(samples, n)
      modifies engine, engine.states.Values
      ensures Valid() && fresh(engine.states.Values - old(engine.states.Values))
      ensures Heard(run, ops + SettleOps(jobs, samples, scope, now))
      ensures findings == ReportsSince(engine.run, |run.ops|)
      ensures tally == TallyOf(jobs, samples, scope)
    {
      findings, tally := [], NONE;
      ghost var heard := ops;
      assert ops + [] == ops;
      for i := 0 to |scope|
        invariant Valid() && fresh(engine.states.Values - old(engine.states.Values))
        invariant heard == ops + SettleOps(jobs, samples, scope[..i], now) && Heard(run, heard)
        invariant findings == ReportsSince(engine.run, |run.ops|)
        invariant tally == TallyOf(jobs, samples, scope[..i])
      {
        var fate, found := SettleJob(scope[i], load, byNode, now, run, heard, jobs, samples);
        OneMoreJob(ops, jobs, samples, scope, now, i);
        heard := heard + JobOps(jobs, samples, scope[i], now);
        findings, tally := findings + found, tally.Add(fate);
      }
      assert scope[..|scope|] == scope;
    }

    // Acts on the findings in order; a drain that ran is confirmed.
    method ActOnFindings(findings: seq<Finding>, now: Time)
      requires Valid()
      modifies engine`run, engine.states.Values, cluster.controller
      ensures Valid()
      ensures var done := Act(cluster.Wired(), old(cluster.controller.calls), findings, now);
        cluster.controller.calls == done.calls && engine.run == DidAll(engine.rules, old(engine.run), done.confirms)
    {
      ghost var calls, run := cluster.controller.calls, engine.run;
      for i := 0 to |findings|
        invariant Valid()
        invariant var done := Act(cluster.Wired(), calls, findings[..i], now);
          cluster.controller.calls == done.calls && engine.run == DidAll(engine.rules, run, done.confirms)
      {
        assert findings[..i + 1][..i] == findings[..i];
        ghost var done := Act(cluster.Wired(), calls, findings[..i], now);
        ActOnFinding(findings[i], now, run, done);
      }
      assert findings[..|findings|] == findings;
    }

    method ActOnFinding(f: Finding, now: Time, ghost run: Run, ghost done: Done)
      requires Valid() && Heard(run, done.confirms) && cluster.controller.calls == done.calls
      modifies engine`run, engine.states.Values, cluster.controller
      ensures Valid()
      ensures var more := ActOn(cluster.Wired(), done, f, now);
        Heard(run, more.confirms) && cluster.controller.calls == more.calls
    {
      if f.verdict.Below(Alert) {
        return;
      }
      var confirmed := Take(f, done.calls);
      if confirmed {
        Confirm(f.job, now, run, done.confirms);
      }
    }

    method Confirm(j: Job, now: Time, ghost run: Run, ghost ops: seq<Op>)
      requires Valid() && Heard(run, ops)
      modifies engine`run, engine.states.Values
      ensures Valid() && Heard(run, ops + [Confirming(j, now)])
    {
      DidMore(engine.rules, run, ops, Confirming(j, now));
      engine.ConfirmDrain(j, now);
    }

    method Take(f: Finding, ghost calls: seq<Call>) returns (confirmed: bool)
      requires cluster.controller.calls == calls
      modifies cluster.controller
      ensures var e := Handled(cluster.Wired(), calls, f); cluster.controller.calls == e.calls && confirmed == Confirmable(f, e)
    {
      var outcome, ok := cluster.Handle(f);
      confirmed := ok && f.verdict == Drain && !f.drainConfirmed && outcome != Noop;
    }

    // Everything from the samples on.
    method Judge(scope: seq<Job>, load: map<string, nat>, samples: seq<Sample>, now: Time, ghost run: Run, ghost ops: seq<Op>, ghost jobs: seq<Job>)
      returns (tally: Tally)
      requires Valid() && Heard(run, ops) && ReportsSince(engine.run, |run.ops|) == []
      requires forall n :: Entry(load, n, 0) == Load(jobs, n)
      modifies engine, engine.states.Values, cluster.controller
      ensures Valid() && fresh(engine.states.Values - old(engine.states.Values))
      ensures View() == ActedOn(Arrangement(), old(View()).calls, |run.ops|,
                                DidAll(engine.rules, run, ops + SettleOps(jobs, samples, scope, now)), now)
      ensures tally == TallyOf(jobs, samples, scope)
    {
      var byNode := GroupByNode(samples);
      var findings;
      findings, tally := SettleScope(scope, load, byNode, now, run, ops, jobs, samples);
      ActOnFindings(findings, now);
    }

    // The jobs no longer listed are forgotten.
    method Prune(jobs: seq<Job>)
      requires Valid()
      modifies engine
      ensures Valid() && engine.states.Values <= old(engine.states).Values
      ensures Heard(old(engine.run), [Forgetting(Active(jobs))])
      ensures ReportsSince(engine.run, |old(engine.run).ops|) == []
    {
      ghost var run := engine.run;
      engine.Forget(set j | j in jobs :: j.id);
      DidMore(engine.rules, run, [], Forgetting(Active(jobs)));
    }

    method Cycle(listing: Listing, scrape: set<string> -> Scrape, now: Time) returns (ok: bool, tally: Tally)
      requires Valid()
      modifies this, engine, engine.states.Values, cluster.controller
      ensures Valid() && fresh(engine.states.Values - old(engine.states.Values))
      ensures View() == Turned(Arrangement(), old(View()), Turn(listing, scrape, now))
      ensures ok <==> Succeeds(Arrangement(), Turn(listing, scrape, now))
      ensures ok ==> tally == TallyOf(listing.jobs, scrape(NodesOf(InScope(Arrangement(), listing.jobs))).samples, InScope(Arrangement(), listing.jobs))
      ensures lastSuccess == if ok then now else old(lastSuccess)
    {
      if listing.ListFailed? {
        return false, NONE;
      }
      var jobs := listing.jobs;
      ghost var run := engine.run;
      Prune(jobs);
      var load := CountLoads(jobs);
      var scope, nodes := FindScope(Arrangement(), jobs);
      var reply := scrape(nodes);
      if reply.ScrapeFailed? {
        return false, NONE;
      }
      tally := Judge(scope, load, reply.samples, now, run, [Forgetting(Active(jobs))], jobs);
      lastSuccess := now;
      ok := true;
    }
  }
}
