// Which samples count for which job. A sample names a node, not a job, so a job
// is judged only when it has its nodes to itself and all of them were sampled.
module Attribution {
  import opened Telemetry
  import opened Daemon

  // ---- Nodes ----

  lemma {:induction false} OccursWhen(nodes: seq<string>, n: string)
    ensures 0 < Occurrences(nodes, n) <==> n in nodes
  {
    if nodes != [] {
      OccursWhen(nodes[..|nodes| - 1], n);
      assert nodes == nodes[..|nodes| - 1] + [nodes[|nodes| - 1]];
    }
  }

  lemma {:induction false} LoadAtLeast(jobs: seq<Job>, n: string, a: nat)
    requires a < |jobs| && jobs[a].gpuCount != 0
    ensures Occurrences(jobs[a].nodes, n) <= Load(jobs, n)
  {
    if a < |jobs| - 1 {
      LoadAtLeast(jobs[..|jobs| - 1], n, a);
    }
  }

  lemma {:induction false} LoadOfTwo(jobs: seq<Job>, n: string, a: nat, b: nat)
    requires a < b < |jobs| && jobs[a].gpuCount != 0 && jobs[b].gpuCount != 0
    ensures Occurrences(jobs[a].nodes, n) + Occurrences(jobs[b].nodes, n) <= Load(jobs, n)
  {
    if b < |jobs| - 1 {
      LoadOfTwo(jobs[..|jobs| - 1], n, a, b);
    } else {
      LoadAtLeast(jobs[..|jobs| - 1], n, a);
    }
  }

  // A job that is judged names each of its nodes once, has at least one, and no
  // other GPU job running anywhere names any of them.
  lemma JudgedAlone(jobs: seq<Job>, samples: seq<Sample>, a: nat, b: nat, n: string)
    requires a < |jobs| && b < |jobs| && a != b && jobs[a].gpuCount != 0 && jobs[b].gpuCount != 0
    requires FateOf(jobs, samples, jobs[a]) == Judged && n in jobs[a].nodes
    ensures Occurrences(jobs[a].nodes, n) == 1
    ensures n !in jobs[b].nodes
  {
    OccursWhen(jobs[a].nodes, n);
    OccursWhen(jobs[b].nodes, n);
    LoadOfTwo(jobs, n, if a < b then a else b, if a < b then b else a);
  }

  // If no other GPU job names the node, its load is the job's own. Jobs without
  // GPUs add nothing.
  lemma {:induction false} LoadOnly(jobs: seq<Job>, n: string, a: nat)
    requires a < |jobs| && jobs[a].gpuCount != 0
    requires forall b :: 0 <= b < |jobs| && b != a && jobs[b].gpuCount != 0 ==> n !in jobs[b].nodes
    ensures Load(jobs, n) == Occurrences(jobs[a].nodes, n)
  {
    var rest, last := jobs[..|jobs| - 1], jobs[|jobs| - 1];
    OccursWhen(last.nodes, n);
    if a < |rest| {
      LoadOnly(rest, n, a);
    } else {
      LoadNone(rest, n);
    }
  }

  lemma {:induction false} LoadNone(jobs: seq<Job>, n: string)
    requires forall b :: 0 <= b < |jobs| && jobs[b].gpuCount != 0 ==> n !in jobs[b].nodes
    ensures Load(jobs, n) == 0
  {
    if jobs != [] {
      LoadNone(jobs[..|jobs| - 1], n);
      OccursWhen(jobs[|jobs| - 1].nodes, n);
    }
  }

  predicate NoneTwice(nodes: seq<string>) {
    forall p, q :: 0 <= p < q < |nodes| ==> nodes[p] != nodes[q]
  }

  lemma {:induction false} OccursOnce(nodes: seq<string>)
    ensures NoneTwice(nodes) <==> forall n :: Occurrences(nodes, n) <= 1
  {
    if nodes != [] {
      var rest, last := nodes[..|nodes| - 1], nodes[|nodes| - 1];
      OccursOnce(rest);
      OccursWhen(rest, last);
      if NoneTwice(nodes) {
        assert forall p, q :: 0 <= p < q < |rest| ==> rest[p] == nodes[p] && rest[q] == nodes[q];
        assert last !in rest;
        assert forall n :: Occurrences(rest, n) <= 1;
        forall n ensures Occurrences(nodes, n) <= 1 {
          assert n == last ==> Occurrences(rest, n) == 0;
        }
      } else if NoneTwice(rest) {
        var p, q :| 0 <= p < q < |nodes| && nodes[p] == nodes[q];
        assert rest[p] == last;
        assert Occurrences(nodes, last) == 2;
      } else {
        var n :| Occurrences(rest, n) > 1;
        assert Occurrences(nodes, n) > 1;
      }
    }
  }

  // The job names a node twice, or shares one with another GPU job.
  ghost predicate Shares(jobs: seq<Job>, a: nat)
    requires a < |jobs|
  {
    || !NoneTwice(jobs[a].nodes)
    || exists b, n :: 0 <= b < |jobs| && b != a && jobs[b].gpuCount != 0 && n in jobs[a].nodes && n in jobs[b].nodes
  }

  lemma SharedWhen(jobs: seq<Job>, a: nat)
    requires a < |jobs| && jobs[a].gpuCount != 0
    ensures OnSharedNode(jobs, jobs[a]) <==> Shares(jobs, a)
  {
    OccursOnce(jobs[a].nodes);
    if Shares(jobs, a) {
      SharesIsShared(jobs, a);
    } else {
      forall n | n in jobs[a].nodes ensures Load(jobs, n) <= 1 {
        LoadOnly(jobs, n, a);
      }
    }
  }

  lemma SharesIsShared(jobs: seq<Job>, a: nat)
    requires a < |jobs| && jobs[a].gpuCount != 0 && Shares(jobs, a)
    ensures OnSharedNode(jobs, jobs[a])
  {
    if NoneTwice(jobs[a].nodes) {
      var b, n :| 0 <= b < |jobs| && b != a && jobs[b].gpuCount != 0 && n in jobs[a].nodes && n in jobs[b].nodes;
      OccursWhen(jobs[a].nodes, n);
      OccursWhen(jobs[b].nodes, n);
      LoadOfTwo(jobs, n, if a < b then a else b, if a < b then b else a);
    } else {
      OccursOnce(jobs[a].nodes);
      var n :| Occurrences(jobs[a].nodes, n) > 1;
      OccursWhen(jobs[a].nodes, n);
      LoadAtLeast(jobs, n, a);
    }
  }

  predicate Speaks(samples: seq<Sample>, n: string) {
    exists x :: x in samples && x.node == n
  }

  // Some sample of its nodes is labelled, and not with this job.
  predicate Disowned(samples: seq<Sample>, j: Job) {
    exists x :: x in samples && x.node in j.nodes && x.jobs != [] && j.id !in x.jobs
  }

  lemma DisownedWhen(samples: seq<Sample>, j: Job)
    ensures Misattributed(j, OnNodes(samples, j.nodes)) <==> Disowned(samples, j)
  {
    OnNodesMembers(samples, j.nodes);
  }

  // What becomes of a GPU job, for each of the five fates.
  lemma FatesMean(jobs: seq<Job>, samples: seq<Sample>, a: nat)
    requires a < |jobs| && jobs[a].gpuCount != 0
    ensures var j, fate := jobs[a], FateOf(jobs, samples, jobs[a]);
      && (fate == Shared <==> Shares(jobs, a))
      && (fate == Unsampled <==> !Shares(jobs, a) && forall n :: n in j.nodes ==> !Speaks(samples, n))
      && (fate == Partial <==>
           && !Shares(jobs, a)
           && (exists n :: n in j.nodes && Speaks(samples, n)) && exists n :: n in j.nodes && !Speaks(samples, n))
      && (fate == Conflicting <==>
           && !Shares(jobs, a)
           && j.nodes != [] && (forall n :: n in j.nodes ==> Speaks(samples, n)) && Disowned(samples, j))
      && (fate == Judged <==>
           && !Shares(jobs, a)
           && j.nodes != [] && (forall n :: n in j.nodes ==> Speaks(samples, n)) && !Disowned(samples, j))
  {
    SharedWhen(jobs, a);
    DisownedWhen(samples, jobs[a]);
    assert forall n :: Sampled(samples, n) <==> Speaks(samples, n);
    assert jobs[a].nodes != [] ==> jobs[a].nodes[0] in jobs[a].nodes;
  }

  // Telemetry is asked for exactly the nodes of the GPU jobs listed, or in a daemon
  // for a single node those of the GPU jobs on that node.
  lemma {:induction false} AskedNodes(s: Setup, jobs: seq<Job>, n: string)
    ensures n in NodesOf(InScope(s, jobs)) <==>
      exists j :: j in jobs && j.gpuCount != 0 && (s.perNode ==> s.localNode in j.nodes) && n in j.nodes
  {
    ScopeMembers(s, jobs);
  }

  lemma {:induction false} ScopeMembers(s: Setup, jobs: seq<Job>)
    ensures forall j :: j in InScope(s, jobs) <==> j in jobs && j.gpuCount != 0 && (s.perNode ==> s.localNode in j.nodes)
  {
    if jobs != [] {
      ScopeMembers(s, jobs[..|jobs| - 1]);
      assert jobs == jobs[..|jobs| - 1] + [jobs[|jobs| - 1]];
    }
  }

  // ---- Samples ----

  function Copies(samples: seq<Sample>, x: Sample): nat {
    if samples == [] then 0 else Copies(samples[..|samples| - 1], x) + if samples[|samples| - 1] == x then 1 else 0
  }

  lemma {:induction false} CopiesAppend(a: seq<Sample>, b: seq<Sample>, x: Sample)
    ensures Copies(a + b, x) == Copies(a, x) + Copies(b, x)
  {
    if b == [] {
      assert a + b == a;
    } else {
      var n := |a| + |b| - 1;
      assert (a + b)[..n] == a + b[..|b| - 1] && (a + b)[n] == b[|b| - 1];
      CopiesAppend(a, b[..|b| - 1], x);
    }
  }

  lemma {:induction false} CopiesAreMultiplicity(samples: seq<Sample>, x: Sample)
    ensures multiset(samples)[x] == Copies(samples, x)
  {
    if samples != [] {
      CopiesAreMultiplicity(samples[..|samples| - 1], x);
      assert samples == samples[..|samples| - 1] + [samples[|samples| - 1]];
    }
  }

  lemma {:induction false} OnNodeCounts(samples: seq<Sample>, n: string, x: Sample)
    ensures Copies(OnNode(samples, n), x) == if x.node == n then Copies(samples, x) else 0
  {
    if samples != [] {
      var rest, last := samples[..|samples| - 1], samples[|samples| - 1];
      OnNodeCounts(rest, n, x);
      if last.node == n {
        CopiesAppend(OnNode(rest, n), [last], x);
        assert [last][..0] == [];
      } else {
        assert OnNode(rest, n) + [] == OnNode(rest, n);
      }
    }
  }

  function Multiplied(k: nat, m: nat): nat {
    if k == 0 then 0 else Multiplied(k - 1, m) + m
  }

  lemma {:induction false} OnNodesCounts(samples: seq<Sample>, nodes: seq<string>, x: Sample)
    ensures Copies(OnNodes(samples, nodes), x) == Multiplied(Occurrences(nodes, x.node), Copies(samples, x))
  {
    if nodes != [] {
      var rest, last := nodes[..|nodes| - 1], nodes[|nodes| - 1];
      OnNodesCounts(samples, rest, x);
      OnNodeCounts(samples, last, x);
      CopiesAppend(OnNodes(samples, rest), OnNode(samples, last), x);
    }
  }

  lemma OwnCounts(jobs: seq<Job>, samples: seq<Sample>, a: nat, x: Sample)
    requires a < |jobs| && jobs[a].gpuCount != 0 && FateOf(jobs, samples, jobs[a]) == Judged
    ensures Copies(OnNodes(samples, jobs[a].nodes), x) == if x.node in jobs[a].nodes then Copies(samples, x) else 0
  {
    LoadAtLeast(jobs, x.node, a);
    OccursWhen(jobs[a].nodes, x.node);
    OnNodesCounts(samples, jobs[a].nodes, x);
  }

  // A judged job is judged on all samples of its nodes and on no others, there
  // are samples of every one of its nodes, and none of them names other jobs only.
  lemma OwnEvidence(jobs: seq<Job>, samples: seq<Sample>, a: nat, x: Sample, n: string)
    requires a < |jobs| && jobs[a].gpuCount != 0 && FateOf(jobs, samples, jobs[a]) == Judged
    ensures var own, nodes := OnNodes(samples, jobs[a].nodes), jobs[a].nodes;
      && multiset(own)[x] == (if x.node in nodes then multiset(samples)[x] else 0)
      && (x in own <==> x in samples && x.node in nodes)
      && (x in own && x.jobs != [] ==> jobs[a].id in x.jobs)
      && nodes != [] && (n in nodes ==> exists s :: s in own && s.node == n)
  {
    var own, nodes := OnNodes(samples, jobs[a].nodes), jobs[a].nodes;
    OwnMultiplicity(jobs, samples, a, x);
    if n in nodes {
      assert Sampled(samples, n);
      var s :| s in samples && s.node == n;
      OwnMultiplicity(jobs, samples, a, s);
    }
  }

  lemma OwnMultiplicity(jobs: seq<Job>, samples: seq<Sample>, a: nat, x: Sample)
    requires a < |jobs| && jobs[a].gpuCount != 0 && FateOf(jobs, samples, jobs[a]) == Judged
    ensures var own, nodes := OnNodes(samples, jobs[a].nodes), jobs[a].nodes;
      && multiset(own)[x] == (if x.node in nodes then multiset(samples)[x] else 0)
      && (x in own <==> x in samples && x.node in nodes)
  {
    var own := OnNodes(samples, jobs[a].nodes);
    OwnCounts(jobs, samples, a, x);
    CopiesAreMultiplicity(samples, x);
    CopiesAreMultiplicity(own, x);
    assert x in own <==> x in multiset(own);
    assert x in samples <==> x in multiset(samples);
  }

  // Everything any of the jobs is judged on.
  function AllShares(jobs: seq<Job>, samples: seq<Sample>, scope: seq<Job>): seq<Sample> {
    if scope == [] then []
    else
      var last := scope[|scope| - 1];
      AllShares(jobs, samples, scope[..|scope| - 1]) + Share(jobs, samples, last)
  }

  function Share(jobs: seq<Job>, samples: seq<Sample>, j: Job): seq<Sample> {
    if Serves(jobs, samples, j) then OnNodes(samples, j.nodes) else []
  }

  ghost predicate ServedBy(jobs: seq<Job>, samples: seq<Sample>, a: nat, n: string)
    requires a < |jobs|
  {
    Serves(jobs, samples, jobs[a]) && n in jobs[a].nodes
  }

  lemma ShareCounts(jobs: seq<Job>, samples: seq<Sample>, a: nat, x: Sample)
    requires a < |jobs|
    ensures Copies(Share(jobs, samples, jobs[a]), x) == if ServedBy(jobs, samples, a, x.node) then Copies(samples, x) else 0
  {
    if Serves(jobs, samples, jobs[a]) {
      OwnCounts(jobs, samples, a, x);
    }
  }

  predicate Serves(jobs: seq<Job>, samples: seq<Sample>, j: Job) {
    j.gpuCount != 0 && FateOf(jobs, samples, j) == Judged
  }

  ghost predicate Served(jobs: seq<Job>, samples: seq<Sample>, k: nat, n: string)
    requires k <= |jobs|
  {
    exists a :: 0 <= a < k && ServedBy(jobs, samples, a, n)
  }

  // A node serves at most one judged job.
  lemma ServedStep(jobs: seq<Job>, samples: seq<Sample>, k: nat, n: string)
    requires k < |jobs|
    ensures Served(jobs, samples, k + 1, n) <==> Served(jobs, samples, k, n) || ServedBy(jobs, samples, k, n)
    ensures !(Served(jobs, samples, k, n) && ServedBy(jobs, samples, k, n))
  {
    if ServedBy(jobs, samples, k, n) {
      forall a | 0 <= a < k ensures !ServedBy(jobs, samples, a, n) {
        if Serves(jobs, samples, jobs[a]) {
          JudgedAlone(jobs, samples, k, a, n);
        }
      }
    }
  }

  lemma EvidenceStep(jobs: seq<Job>, samples: seq<Sample>, k: nat, x: Sample)
    requires k < |jobs|
    ensures Copies(AllShares(jobs, samples, jobs[..k + 1]), x)
         == Copies(AllShares(jobs, samples, jobs[..k]), x) + Copies(Share(jobs, samples, jobs[k]), x)
  {
    assert jobs[..k + 1][..k] == jobs[..k];
    CopiesAppend(AllShares(jobs, samples, jobs[..k]), Share(jobs, samples, jobs[k]), x);
  }

  lemma {:induction false} EvidenceCounts(jobs: seq<Job>, samples: seq<Sample>, k: nat, x: Sample)
    requires k <= |jobs|
    ensures Copies(AllShares(jobs, samples, jobs[..k]), x) == if Served(jobs, samples, k, x.node) then Copies(samples, x) else 0
  {
    if k > 0 {
      EvidenceCounts(jobs, samples, k - 1, x);
      EvidenceStep(jobs, samples, k - 1, x);
      ShareCounts(jobs, samples, k - 1, x);
      ServedStep(jobs, samples, k - 1, x.node);
    }
  }

  // No sample serves two jobs: all evidence together is part of the samples,
  // each as often as it was delivered.
  lemma NoSampleServesTwice(jobs: seq<Job>, samples: seq<Sample>)
    ensures multiset(AllShares(jobs, samples, jobs)) <= multiset(samples)
  {
    assert jobs[..|jobs|] == jobs;
    forall x: Sample ensures multiset(AllShares(jobs, samples, jobs))[x] <= multiset(samples)[x] {
      EvidenceCounts(jobs, samples, |jobs|, x);
      CopiesAreMultiplicity(samples, x);
      CopiesAreMultiplicity(AllShares(jobs, samples, jobs), x);
    }
  }
}
