// The two loops that read a window of samples: coverage, which decides whether
// the evidence can support a verdict, and summarize, which condenses it.
module Evidence {
  import opened Telemetry
  import opened Policy

  // ---- Sorting observation times ----

  ghost predicate Ascending(ts: seq<Time>) {
    forall i, k :: 0 <= i < k < |ts| ==> ts[i] < ts[k]
  }

  method InsertTime(sorted: seq<Time>, at: Time) returns (grown: seq<Time>)
    requires Ascending(sorted) && at !in sorted
    ensures Ascending(grown) && |grown| == |sorted| + 1
    ensures forall x :: x in grown <==> x in sorted || x == at
  {
    var k := |sorted|;
    while 0 < k && at < sorted[k - 1]
      invariant 0 <= k <= |sorted|
      invariant forall m :: k <= m < |sorted| ==> at < sorted[m]
    {
      k := k - 1;
    }
    assert 0 < k ==> sorted[k - 1] in sorted && sorted[k - 1] < at;
    grown := WithTime(sorted, k, at);
    InsertedTime(sorted, k, at);
    WithTimeMembers(sorted, k, at);
  }

  function WithTime(sorted: seq<Time>, k: nat, at: Time): seq<Time>
    requires k <= |sorted|
  {
    sorted[..k] + [at] + sorted[k..]
  }

  lemma WithTimeAt(sorted: seq<Time>, k: nat, at: Time, i: nat)
    requires k <= |sorted| && i <= |sorted|
    ensures WithTime(sorted, k, at)[i] == if i < k then sorted[i] else if i == k then at else sorted[i - 1]
  {
  }

  lemma InsertedTime(sorted: seq<Time>, k: nat, at: Time)
    requires Ascending(sorted) && k <= |sorted|
    requires (0 < k ==> sorted[k - 1] < at) && (k < |sorted| ==> at < sorted[k])
    ensures Ascending(WithTime(sorted, k, at))
  {
    forall i, m | 0 <= i < m < |sorted| + 1 ensures WithTime(sorted, k, at)[i] < WithTime(sorted, k, at)[m] {
      WithTimeAt(sorted, k, at, i);
      WithTimeAt(sorted, k, at, m);
    }
  }

  lemma WithTimeMembers(sorted: seq<Time>, k: nat, at: Time)
    requires k <= |sorted|
    ensures forall x :: x in WithTime(sorted, k, at) <==> x in sorted || x == at
  {
    assert sorted == sorted[..k] + sorted[k..];
  }

  method SortTimes(ts: seq<Time>) returns (sorted: seq<Time>)
    requires forall i, k :: 0 <= i < k < |ts| ==> ts[i] != ts[k]
    ensures Ascending(sorted) && |sorted| == |ts|
    ensures forall at :: at in sorted <==> at in ts
  {
    sorted := [];
    for i := 0 to |ts|
      invariant Ascending(sorted) && |sorted| == i
      invariant forall at :: at in sorted <==> at in ts[..i]
    {
      assert ts[..i + 1] == ts[..i] + [ts[i]];
      assert ts[i] !in ts[..i];
      sorted := InsertTime(sorted, ts[i]);
    }
    assert ts[..|ts|] == ts;
  }

  ghost function Elements(ts: seq<Time>): set<Time> {
    set at | at in ts
  }

  lemma {:induction false} AscendingSize(ts: seq<Time>)
    requires Ascending(ts)
    ensures |Elements(ts)| == |ts|
  {
    if ts != [] {
      var n := |ts| - 1;
      AscendingSize(ts[..n]);
      assert Elements(ts) == Elements(ts[..n]) + {ts[n]};
      assert ts[n] !in Elements(ts[..n]);
    } else {
      assert Elements(ts) == {};
    }
  }

  ghost predicate AdjacentGaps(t: Thresholds, ts: seq<Time>) {
    forall i :: 1 <= i < |ts| ==> ts[i] - ts[i - 1] <= t.maxSampleGap
  }

  // The adjacent-gap loop over sorted times decides the order-free NoHole.
  lemma SortedGaps(t: Thresholds, ts: seq<Time>)
    requires Ascending(ts)
    ensures NoHole(t, Elements(ts)) <==> AdjacentGaps(t, ts)
  {
    if NoHole(t, Elements(ts)) {
      forall i | 1 <= i < |ts| ensures ts[i] - ts[i - 1] <= t.maxSampleGap {
        NoHoleBefore(t, ts, i);
      }
    }
    if AdjacentGaps(t, ts) {
      forall at | at in Elements(ts)
        ensures IsNewest(Elements(ts), at) || HasSuccessor(t, Elements(ts), at)
      {
        var i :| 0 <= i < |ts| && ts[i] == at;
        if i + 1 < |ts| {
          var k := i + 1;
          assert ts[k] in Elements(ts) && ts[k] - ts[k - 1] <= t.maxSampleGap;
        } else {
          assert IsNewest(Elements(ts), at);
        }
      }
    }
  }

  lemma NoHoleBefore(t: Thresholds, ts: seq<Time>, i: nat)
    requires Ascending(ts) && NoHole(t, Elements(ts)) && 1 <= i < |ts|
    ensures ts[i] - ts[i - 1] <= t.maxSampleGap
  {
    var at := ts[i - 1];
    assert at in Elements(ts) && ts[i] in Elements(ts) && at < ts[i];
    assert HasSuccessor(t, Elements(ts), at);
    var u :| u in Elements(ts) && at < u <= at + t.maxSampleGap;
    var k :| 0 <= k < |ts| && ts[k] == u;
    assert i <= k;
    assert ts[i] <= ts[k];
  }

  // ---- Coverage ----

  // Per node, per observation time, how many samples were seen.
  type Histogram = map<string, map<Time, nat>>

  ghost predicate IsHistogram(byNode: Histogram, samples: seq<Sample>) {
    forall n :: NodeHistogram(if n in byNode then byNode[n] else map[], samples, n)
  }

  ghost predicate NodeHistogram(times: map<Time, nat>, samples: seq<Sample>, n: string) {
    && times.Keys == Times(samples, n)
    && forall at :: at in times ==> times[at] == Count(samples, n, at)
  }

  lemma CountOutside(samples: seq<Sample>, n: string, at: Time)
    requires at !in Times(samples, n)
    ensures Count(samples, n, at) == 0
  {
    if samples != [] {
      var last := samples[|samples| - 1];
      assert samples == samples[..|samples| - 1] + [last];
      assert last in samples;
      CountOutside(samples[..|samples| - 1], n, at);
    }
  }

  lemma HistogramStep(byNode: Histogram, samples: seq<Sample>, s: Sample)
    requires IsHistogram(byNode, samples)
    ensures var times := if s.node in byNode then byNode[s.node] else map[];
      var count := if s.timestamp in times then times[s.timestamp] else 0;
      IsHistogram(byNode[s.node := times[s.timestamp := count + 1]], samples + [s])
  {
    var times := if s.node in byNode then byNode[s.node] else map[];
    var count := if s.timestamp in times then times[s.timestamp] else 0;
    var after := byNode[s.node := times[s.timestamp := count + 1]];
    assert NodeHistogram(times, samples, s.node);
    forall n ensures NodeHistogram(if n in after then after[n] else map[], samples + [s], n) {
      assert NodeHistogram(if n in byNode then byNode[n] else map[], samples, n);
      assert Times(samples + [s], n) == Times(samples, n) + if s.node == n then {s.timestamp} else {};
      assert (samples + [s])[..|samples|] == samples;
      if s.timestamp !in Times(samples, n) {
        CountOutside(samples, n, s.timestamp);
      }
    }
  }

  // The observation times of one node, in the arbitrary order of its tally,
  // and whether every one of them saw the same number of GPUs.
  method Collect(times: map<Time, nat>, ghost samples: seq<Sample>, ghost n: string) returns (ts: seq<Time>, uniform: bool)
    requires NodeHistogram(times, samples, n)
    ensures uniform == Uniform(samples, n)
    ensures uniform ==> Elements(ts) == times.Keys
    ensures forall i, k :: 0 <= i < k < |ts| ==> ts[i] != ts[k]
  {
    ts := [];
    var want: int := -1;
    var rest := times.Keys;
    while rest != {}
      invariant rest <= times.Keys
      invariant Elements(ts) == times.Keys - rest
      invariant forall i, k :: 0 <= i < k < |ts| ==> ts[i] != ts[k]
      invariant ts == [] <==> want == -1
      invariant forall at :: at in Elements(ts) ==> times[at] == want
    {
      var at :| at in rest;
      if want == -1 {
        want := times[at];
      } else if times[at] != want {
        assert ts[0] in ts && ts[0] in Elements(ts);
        return ts, false;
      }
      assert Elements(ts + [at]) == Elements(ts) + {at};
      assert at !in Elements(ts);
      rest := rest - {at};
      ts := ts + [at];
    }
    assert forall at :: at in Times(samples, n) ==> at in Elements(ts) && Count(samples, n, at) == want;
    return ts, true;
  }

  // The checks made on one node, from its tally.
  method CheckNode(t: Thresholds, times: map<Time, nat>, now: Time, ghost samples: seq<Sample>, ghost n: string)
    returns (fault: Fault)
    requires NodeHistogram(times, samples, n)
    ensures fault == NodeFault(t, samples, n, now)
  {
    if |times| == 0 {
      assert times.Keys == {};
      return NoSamples;
    }
    assert times.Keys != {} by {
      assert |times.Keys| == |times|;
    }
    var ts, uniform := Collect(times, samples, n);
    if !uniform {
      return VaryingGPUs;
    }
    fault := CheckTimes(t, ts, now, times.Keys);
  }

  method CheckTimes(t: Thresholds, unsorted: seq<Time>, now: Time, ghost times: set<Time>) returns (fault: Fault)
    requires forall i, k :: 0 <= i < k < |unsorted| ==> unsorted[i] != unsorted[k]
    requires Elements(unsorted) == times && times != {}
    ensures fault ==
      if |times| < t.minSamples then TooFewObservations
      else if !NewestIsRecent(t, times, now) then Stale
      else if !OldestReachesBack(t, times, now) then NotYetCovered
      else if !NoHole(t, times) then Gap
      else Sound
  {
    var ts := SortTimes(unsorted);
    AscendingSize(ts);
    assert Elements(ts) == times;
    assert ts != [];
    EndsDecide(t, ts, now);
    SortedGaps(t, ts);
    if |ts| < t.minSamples {
      return TooFewObservations;
    }
    if t.maxSampleGap < now - ts[|ts| - 1] {
      return Stale;
    }
    if now - t.window + t.maxSampleGap < ts[0] {
      return NotYetCovered;
    }
    for i := 1 to |ts|
      invariant forall k :: 1 <= k < i ==> ts[k] - ts[k - 1] <= t.maxSampleGap
    {
      if t.maxSampleGap < ts[i] - ts[i - 1] {
        return Gap;
      }
    }
    return Sound;
  }

  lemma EndsDecide(t: Thresholds, ts: seq<Time>, now: Time)
    requires Ascending(ts) && ts != []
    ensures NewestIsRecent(t, Elements(ts), now) <==> now - ts[|ts| - 1] <= t.maxSampleGap
    ensures OldestReachesBack(t, Elements(ts), now) <==> ts[0] <= now - t.window + t.maxSampleGap
  {
    var newest, oldest := ts[|ts| - 1], ts[0];
    assert newest in Elements(ts) && oldest in Elements(ts);
    assert forall at :: at in Elements(ts) ==> oldest <= at <= newest;
  }

  method CheckCoverage(t: Thresholds, samples: seq<Sample>, j: Job, now: Time) returns (info: Coverage)
    ensures info == CoverageOf(t, samples, j, now)
  {
    var gpus: set<(string, int)> := {};
    var byNode: Histogram := map[];
    for i := 0 to |samples|
      invariant forall s :: s in samples[..i] ==> s.Judgeable()
      invariant gpus == GPUs(samples[..i])
      invariant IsHistogram(byNode, samples[..i])
    {
      var s := samples[i];
      assert s in samples && samples[..i + 1] == samples[..i] + [s];
      if !s.Judgeable() {
        return Coverage(0, 0, NotJudgeable);
      }
      HistogramStep(byNode, samples[..i], s);
      gpus := gpus + {(s.node, s.gpu)};
      var times := if s.node in byNode then byNode[s.node] else map[];
      byNode := byNode[s.node := times[s.timestamp := (if s.timestamp in times then times[s.timestamp] else 0) + 1]];
    }
    assert samples[..|samples|] == samples;
    if j.nodes == [] {
      return Coverage(0, |gpus|, NoNodes);
    }
    var observations: int := -1;
    for i := 0 to |j.nodes|
      invariant CheckNodes(t, samples, j.nodes, now, -1, |gpus|) == CheckNodes(t, samples, j.nodes[i..], now, observations, |gpus|)
    {
      var n := j.nodes[i];
      var times := if n in byNode then byNode[n] else map[];
      var fault := CheckNode(t, times, now, samples, n);
      assert j.nodes[i..][0] == n && j.nodes[i..][1..] == j.nodes[i + 1..];
      if fault == NoSamples || fault == VaryingGPUs {
        return Coverage(observations, |gpus|, fault);
      }
      assert |times| == |times.Keys| == |Times(samples, n)|;
      if observations == -1 || |times| < observations {
        observations := |times|;
      }
      if fault != Sound {
        return Coverage(observations, |gpus|, fault);
      }
    }
    if |gpus| < j.gpuCount {
      return Coverage(observations, |gpus|, TooFewGPUs);
    }
    return Coverage(observations, |gpus|, Sound);
  }

  lemma {:induction false} NodesSound(t: Thresholds, samples: seq<Sample>, nodes: seq<string>, now: Time, observations: int, gpus: nat)
    requires observations == -1 || 0 <= observations
    ensures var c := CheckNodes(t, samples, nodes, now, observations, gpus);
      && (c.fault == Sound <==> forall n :: n in nodes ==> NodeCovered(t, samples, n, now))
      && c.gpus == gpus
      && (c.fault == Sound && (nodes != [] || 0 <= observations) ==>
           && 0 <= c.observations
           && (observations != -1 ==> c.observations <= observations)
           && (forall n :: n in nodes ==> c.observations <= |Times(samples, n)|)
           && (c.observations == observations || exists n :: n in nodes && c.observations == |Times(samples, n)|))
  {
    if nodes != [] {
      var fewest := FewestObservations(observations, Times(samples, nodes[0]));
      assert nodes == [nodes[0]] + nodes[1..];
      NodesSound(t, samples, nodes[1..], now, fewest, gpus);
      assert NodeFault(t, samples, nodes[0], now) == Sound <==> NodeCovered(t, samples, nodes[0], now);
    }
  }

  // The loops accept exactly the windows that satisfy the order-free predicate,
  // and then report the fewest observations of any node and the distinct GPUs.
  lemma CoverageIsCovered(t: Thresholds, samples: seq<Sample>, j: Job, now: Time)
    ensures var c := CoverageOf(t, samples, j, now);
      && (c.fault == Sound <==> Covered(t, samples, j, now))
      && (c.fault == Sound ==>
           && c.gpus == |GPUs(samples)|
           && (forall n :: n in j.nodes ==> c.observations <= |Times(samples, n)|)
           && exists n :: n in j.nodes && c.observations == |Times(samples, n)|)
  {
    NodesSound(t, samples, j.nodes, now, -1, |GPUs(samples)|);
  }

  // Coverage is a property of the collection of samples, not of their order.
  lemma CoverageIgnoresOrder(t: Thresholds, a: seq<Sample>, b: seq<Sample>, j: Job, now: Time)
    requires multiset(a) == multiset(b)
    ensures CoverageOf(t, a, j, now) == CoverageOf(t, b, j, now)
  {
    assert forall s :: s in a <==> s in multiset(a);
    assert forall s :: s in b <==> s in multiset(b);
    assert forall s :: s in a <==> s in b;
    assert GPUs(a) == GPUs(b);
    forall n ensures Times(a, n) == Times(b, n) && Uniform(a, n) == Uniform(b, n) {
      assert Times(a, n) == Times(b, n);
      forall at ensures Count(a, n, at) == Count(b, n, at) {
        CountIgnoresOrder(a, b, n, at);
      }
    }
    SameNodes(t, a, b, j.nodes, now, -1, |GPUs(a)|);
  }

  lemma {:induction false} SameNodes(t: Thresholds, a: seq<Sample>, b: seq<Sample>, nodes: seq<string>, now: Time, observations: int, gpus: nat)
    requires forall n :: Times(a, n) == Times(b, n) && Uniform(a, n) == Uniform(b, n)
    ensures CheckNodes(t, a, nodes, now, observations, gpus) == CheckNodes(t, b, nodes, now, observations, gpus)
  {
    if nodes != [] {
      assert Times(a, nodes[0]) == Times(b, nodes[0]);
      SameNodes(t, a, b, nodes[1..], now, FewestObservations(observations, Times(a, nodes[0])), gpus);
    }
  }

  lemma {:induction false} CountIgnoresOrder(a: seq<Sample>, b: seq<Sample>, n: string, at: Time)
    requires multiset(a) == multiset(b)
    ensures Count(a, n, at) == Count(b, n, at)
  {
    if a == [] {
      assert |multiset(b)| == |b| == 0;
    } else {
      var k := |a| - 1;
      var last := a[k];
      assert a == a[..k] + [last];
      assert last in multiset(b);
      var i :| 0 <= i < |b| && b[i] == last;
      var without := b[..i] + b[i + 1..];
      assert b == b[..i] + [last] + b[i + 1..];
      assert multiset(a) == multiset(a[..k]) + multiset{last};
      assert multiset(b) == multiset(b[..i]) + multiset{last} + multiset(b[i + 1..]);
      assert multiset(a[..k]) == multiset(a) - multiset{last};
      assert multiset(without) == multiset(b) - multiset{last};
      CountIgnoresOrder(a[..k], without, n, at);
      CountSplit(b[..i], b[i + 1..], n, at);
      CountSplit(b[..i] + [last], b[i + 1..], n, at);
      assert (b[..i] + [last])[..i] == b[..i];
    }
  }

  lemma {:induction false} CountSplit(a: seq<Sample>, b: seq<Sample>, n: string, at: Time)
    ensures Count(a + b, n, at) == Count(a, n, at) + Count(b, n, at)
  {
    if b == [] {
      assert a + b == a;
    } else {
      var k := |b| - 1;
      var whole := a + b;
      assert whole[..|whole| - 1] == a + b[..k] && whole[|whole| - 1] == b[k];
      CountSplit(a, b[..k], n, at);
    }
  }

  // What coverage is for: every instant of the window, up to one gap before
  // now, is followed within one gap by an observation of each node.
  lemma EveryInstantIsObserved(t: Thresholds, samples: seq<Sample>, j: Job, now: Time, n: string, x: Time)
    requires t.Valid() && Covered(t, samples, j, now) && n in j.nodes
    requires now - t.window <= x <= now - t.maxSampleGap
    ensures exists s :: s in samples && s.node == n && x <= s.timestamp <= x + t.maxSampleGap
  {
    var times := Times(samples, n);
    assert NodeCovered(t, samples, n, now);
    var at := NextObservation(t, times, now, x);
  }

  lemma NextObservation(t: Thresholds, times: set<Time>, now: Time, x: Time) returns (at: Time)
    requires 0 < t.maxSampleGap && NewestIsRecent(t, times, now) && OldestReachesBack(t, times, now) && NoHole(t, times)
    requires now - t.window <= x <= now - t.maxSampleGap
    ensures at in times && x <= at <= x + t.maxSampleGap
  {
    var oldest :| oldest in times && oldest <= now - t.window + t.maxSampleGap;
    if x <= oldest {
      at := oldest;
    } else {
      var before := set u | u in times && u < x;
      assert oldest in before;
      var last := Latest(before);
      var newest :| newest in times && now - newest <= t.maxSampleGap;
      assert last < newest;
      assert HasSuccessor(t, times, last);
      at :| at in times && last < at <= last + t.maxSampleGap;
      assert at !in before;
    }
  }

  lemma {:induction false} Latest(times: set<Time>) returns (at: Time)
    requires times != {}
    ensures at in times && IsNewest(times, at)
    decreases times
  {
    if forall u :: u !in times {
      assert false;
    }
    var some :| some in times;
    var rest := times - {some};
    at := some;
    if rest != {} {
      var other := Latest(rest);
      if some < other {
        at := other;
      }
    }
    assert forall u :: u in times ==> u == some || u in rest;
  }

  // ---- Summary ----

  datatype Totals = Totals(
    sumUtil: real, sumMem: real, sumPower: real, peak: real,
    powerKnown: bool, pidsKnown: bool, maxPids: nat, first: Time)

  ghost function Fold(samples: seq<Sample>): Totals
    requires samples != []
    decreases |samples|
  {
    var n := |samples| - 1;
    AddTo(if n == 0 then Totals(0.0, 0.0, 0.0, 0.0, true, true, 0, samples[0].timestamp) else Fold(samples[..n]), samples[n])
  }

  ghost function AddTo(t: Totals, s: Sample): Totals {
    Totals(
      t.sumUtil + s.util,
      t.sumMem + s.MemUsedFraction(),
      t.sumPower + (if s.powerKnown then s.power else 0.0),
      if t.peak < s.util then s.util else t.peak,
      t.powerKnown && s.powerKnown,
      t.pidsKnown && s.pidsKnown,
      if s.pidsKnown && t.maxPids < |s.pids| then |s.pids| else t.maxPids,
      if s.timestamp < t.first then s.timestamp else t.first)
  }

  lemma {:induction false} FoldMeaning(samples: seq<Sample>)
    requires samples != []
    ensures var f := Fold(samples);
      && f.sumUtil == SumUtil(samples) && f.sumMem == SumMem(samples) && f.sumPower == SumPower(samples)
      && f.peak == PeakUtil(samples) && f.maxPids == MaxPids(samples) && f.first == First(samples)
      && (f.powerKnown <==> forall s :: s in samples ==> s.powerKnown)
      && (f.pidsKnown <==> forall s :: s in samples ==> s.pidsKnown)
    decreases |samples|
  {
    var n := |samples| - 1;
    var before, last := samples[..n], samples[n];
    assert samples == before + [last];
    assert forall s :: s in samples <==> s in before || s == last;
    if n == 0 {
      assert before == [];
    } else {
      FoldMeaning(before);
    }
  }

  lemma FoldStep(samples: seq<Sample>, i: nat)
    requires i < |samples|
    ensures Fold(samples[..i + 1]) ==
      AddTo(if i == 0 then Totals(0.0, 0.0, 0.0, 0.0, true, true, 0, samples[0].timestamp) else Fold(samples[..i]), samples[i])
  {
    assert samples[..i + 1][..i] == samples[..i];
  }

  method Summarize(samples: seq<Sample>) returns (stats: Stats)
    ensures stats == Summary(samples)
  {
    if samples == [] {
      return Stats(0.0, 0.0, 0.0, 0.0, false, false, 0, UNSET);
    }
    var sumUtil, sumMem, sumPower, peak := 0.0, 0.0, 0.0, 0.0;
    var powerKnown, pidsKnown := true, true;
    var maxPids: nat := 0;
    var first := samples[0].timestamp;
    for i := 0 to |samples|
      invariant Totals(sumUtil, sumMem, sumPower, peak, powerKnown, pidsKnown, maxPids, first) ==
        if i == 0 then Totals(0.0, 0.0, 0.0, 0.0, true, true, 0, samples[0].timestamp) else Fold(samples[..i])
    {
      var s := samples[i];
      ghost var before := Totals(sumUtil, sumMem, sumPower, peak, powerKnown, pidsKnown, maxPids, first);
      FoldStep(samples, i);
      sumUtil := sumUtil + s.util;
      sumMem := sumMem + s.MemUsedFraction();
      if s.powerKnown {
        sumPower := sumPower + s.power;
      } else {
        powerKnown := false;
      }
      if peak < s.util {
        peak := s.util;
      }
      if s.pidsKnown {
        if maxPids < |s.pids| {
          maxPids := |s.pids|;
        }
      } else {
        pidsKnown := false;
      }
      if s.timestamp < first {
        first := s.timestamp;
      }
      assert Totals(sumUtil, sumMem, sumPower, peak, powerKnown, pidsKnown, maxPids, first) == AddTo(before, s);
    }
    assert samples[..|samples|] == samples;
    FoldMeaning(samples);
    var n := |samples| as real;
    stats := Stats(sumUtil / n, peak, sumMem / n, if powerKnown then sumPower / n else 0.0, powerKnown, pidsKnown, maxPids, first);
  }

  // ---- Coverage, sample by sample ----

  // Which samples are of node n and stamped at.
  ghost function StampedAt(samples: seq<Sample>, n: string, at: Time): set<int> {
    set i | 0 <= i < |samples| && samples[i].node == n && samples[i].timestamp == at
  }

  lemma {:induction false} CountIsHowMany(samples: seq<Sample>, n: string, at: Time)
    ensures Count(samples, n, at) == |StampedAt(samples, n, at)|
  {
    if samples == [] {
      assert StampedAt(samples, n, at) == {};
    } else {
      var k := |samples| - 1;
      CountIsHowMany(samples[..k], n, at);
      if samples[k].node == n && samples[k].timestamp == at {
        assert StampedAt(samples, n, at) == StampedAt(samples[..k], n, at) + {k};
      } else {
        assert StampedAt(samples, n, at) == StampedAt(samples[..k], n, at);
      }
    }
  }

  ghost predicate OfNode(samples: seq<Sample>, n: string, x: Sample) {
    x in samples && x.node == n
  }

  ghost predicate SeenRecently(t: Thresholds, samples: seq<Sample>, n: string, now: Time) {
    exists x :: OfNode(samples, n, x) && now <= x.timestamp + t.maxSampleGap
  }

  ghost predicate SeenFarBack(t: Thresholds, samples: seq<Sample>, n: string, now: Time) {
    exists x :: OfNode(samples, n, x) && x.timestamp + t.window <= now + t.maxSampleGap
  }

  // The node was seen later than x, but not soon after.
  ghost predicate HoleAfter(t: Thresholds, samples: seq<Sample>, n: string, x: Sample) {
    && (exists y :: OfNode(samples, n, y) && x.timestamp < y.timestamp)
    && forall y :: OfNode(samples, n, y) ==> y.timestamp <= x.timestamp || x.timestamp + t.maxSampleGap < y.timestamp
  }

  // One observation of the node saw more of its GPUs than another.
  ghost predicate Varies(samples: seq<Sample>, n: string) {
    exists x, y :: OfNode(samples, n, x) && OfNode(samples, n, y) && |StampedAt(samples, n, x.timestamp)| != |StampedAt(samples, n, y.timestamp)|
  }

  // The node was seen often enough, recently, far enough back and without a hole,
  // and with as many GPUs every time.
  ghost predicate SeenThroughout(t: Thresholds, samples: seq<Sample>, n: string, now: Time) {
    && t.minSamples <= |set x | x in samples && x.node == n :: x.timestamp|
    && SeenRecently(t, samples, n, now)
    && SeenFarBack(t, samples, n, now)
    && (forall x :: OfNode(samples, n, x) ==> !HoleAfter(t, samples, n, x))
    && !Varies(samples, n)
  }

  // The stamps of a node are those of its samples.
  lemma TimesOf(samples: seq<Sample>, n: string)
    ensures forall x :: OfNode(samples, n, x) ==> x.timestamp in Times(samples, n)
    ensures forall at :: at in Times(samples, n) ==> exists x :: OfNode(samples, n, x) && x.timestamp == at
  {
    forall at | at in Times(samples, n) ensures exists x :: OfNode(samples, n, x) && x.timestamp == at {
      var x :| x in samples && x.node == n && x.timestamp == at;
      assert OfNode(samples, n, x);
    }
  }

  lemma UniformMeans(samples: seq<Sample>, n: string)
    ensures Uniform(samples, n) <==> !Varies(samples, n)
  {
    forall at ensures Count(samples, n, at) == |StampedAt(samples, n, at)| {
      CountIsHowMany(samples, n, at);
    }
    TimesOf(samples, n);
  }

  lemma EndsMean(t: Thresholds, samples: seq<Sample>, n: string, now: Time)
    ensures NewestIsRecent(t, Times(samples, n), now) <==> SeenRecently(t, samples, n, now)
    ensures OldestReachesBack(t, Times(samples, n), now) <==> SeenFarBack(t, samples, n, now)
  {
    TimesOf(samples, n);
  }

  lemma HolesMean(t: Thresholds, samples: seq<Sample>, n: string)
    ensures NoHole(t, Times(samples, n)) <==> forall x :: OfNode(samples, n, x) ==> !HoleAfter(t, samples, n, x)
  {
    var times := Times(samples, n);
    forall x | OfNode(samples, n, x) ensures HoleAfter(t, samples, n, x) <==> !IsNewest(times, x.timestamp) && !HasSuccessor(t, times, x.timestamp) {
      SuccessorMeans(t, samples, n, x);
    }
    TimesOf(samples, n);
  }

  lemma SuccessorMeans(t: Thresholds, samples: seq<Sample>, n: string, x: Sample)
    ensures HoleAfter(t, samples, n, x) <==> !IsNewest(Times(samples, n), x.timestamp) && !HasSuccessor(t, Times(samples, n), x.timestamp)
  {
    TimesOf(samples, n);
  }

  lemma SoundIsCovered(t: Thresholds, samples: seq<Sample>, n: string, now: Time)
    ensures NodeFault(t, samples, n, now) == Sound <==> NodeCovered(t, samples, n, now)
  {
  }

  lemma NodeCoveredMeans(t: Thresholds, samples: seq<Sample>, n: string, now: Time)
    requires t.Valid()
    ensures NodeCovered(t, samples, n, now) <==> SeenThroughout(t, samples, n, now)
  {
    UniformMeans(samples, n);
    EndsMean(t, samples, n, now);
    HolesMean(t, samples, n);
    SeenMeansSeen(t, samples, n, now);
    assert Times(samples, n) == set x | x in samples && x.node == n :: x.timestamp;
  }

  lemma SeenMeansSeen(t: Thresholds, samples: seq<Sample>, n: string, now: Time)
    ensures SeenRecently(t, samples, n, now) ==> Times(samples, n) != {}
  {
    TimesOf(samples, n);
  }

  // Evidence is sound exactly if every sample can be judged, and every node of the
  // job, of which there is one, was seen throughout the window, and no fewer GPUs
  // than the job holds.
  lemma CoveredMeans(t: Thresholds, samples: seq<Sample>, j: Job, now: Time)
    requires t.Valid()
    ensures CoverageOf(t, samples, j, now).fault == Sound <==>
      && (forall x :: x in samples ==> x.utilKnown && x.memKnown && !x.mig)
      && j.nodes != [] && (forall n :: n in j.nodes ==> SeenThroughout(t, samples, n, now))
      && j.gpuCount <= |set x | x in samples :: (x.node, x.gpu)|
  {
    CoverageIsCovered(t, samples, j, now);
    forall n ensures NodeCovered(t, samples, n, now) <==> SeenThroughout(t, samples, n, now) {
      NodeCoveredMeans(t, samples, n, now);
    }
    assert GPUs(samples) == set x | x in samples :: (x.node, x.gpu);
  }

  // ---- What a finding says was observed ----

  // The smallest number of observations of these nodes and of what was counted before.
  predicate FewestSoFar(samples: seq<Sample>, before: int, nodes: seq<string>, fewest: int) {
    && (before != -1 ==> fewest <= before)
    && (forall n :: n in nodes ==> fewest <= |Times(samples, n)|)
    && (fewest == before || exists n :: n in nodes && fewest == |Times(samples, n)|)
    && (nodes != [] ==> 0 <= fewest)
  }

  // Counting the first node before the others is counting them all.
  lemma FewestStep(samples: seq<Sample>, before: int, first: string, rest: seq<string>, fewest: int)
    requires -1 <= before && FewestSoFar(samples, FewestObservations(before, Times(samples, first)), rest, fewest)
    ensures FewestSoFar(samples, before, [first] + rest, fewest)
  {
    assert forall n :: n in [first] + rest <==> n == first || n in rest;
  }

  lemma {:induction false} FewestOf(t: Thresholds, samples: seq<Sample>, nodes: seq<string>, now: Time, observations: int, gpus: nat)
    requires -1 <= observations && CheckNodes(t, samples, nodes, now, observations, gpus).fault == Sound
    ensures var c := CheckNodes(t, samples, nodes, now, observations, gpus);
      c.gpus == gpus && FewestSoFar(samples, observations, nodes, c.observations)
  {
    if nodes != [] {
      var fewest := FewestObservations(observations, Times(samples, nodes[0]));
      var c := CheckNodes(t, samples, nodes[1..], now, fewest, gpus);
      FewestOf(t, samples, nodes[1..], now, fewest, gpus);
      assert nodes == [nodes[0]] + nodes[1..];
      FewestStep(samples, observations, nodes[0], nodes[1..], c.observations);
    }
  }

  // How many of the nodes up to the one at fault are counted: not that one, if
  // nothing was seen of it or its GPUs vary.
  function Counted(fault: Fault, k: nat): nat {
    if fault == NoSamples || fault == VaryingGPUs then k else k + 1
  }

  // Node k is the first at fault, and so many observations were counted.
  ghost predicate FaultAt(t: Thresholds, samples: seq<Sample>, nodes: seq<string>, now: Time, before: int, c: Coverage, k: nat) {
    && k < |nodes| && c.fault == NodeFault(t, samples, nodes[k], now) != Sound
    && (forall i :: 0 <= i < k ==> NodeFault(t, samples, nodes[i], now) == Sound)
    && FewestSoFar(samples, before, nodes[..Counted(c.fault, k)], c.observations)
  }

  lemma FaultHere(t: Thresholds, samples: seq<Sample>, nodes: seq<string>, now: Time, before: int, gpus: nat)
    requires -1 <= before && nodes != [] && NodeFault(t, samples, nodes[0], now) != Sound
    ensures FaultAt(t, samples, nodes, now, before, CheckNodes(t, samples, nodes, now, before, gpus), 0)
  {
    var fewest := FewestObservations(before, Times(samples, nodes[0]));
    assert nodes[..0] == [] && nodes[..1] == [nodes[0]] + [];
    FewestStep(samples, before, nodes[0], [], fewest);
  }

  lemma FirstApart<T>(s: seq<T>, n: nat)
    requires n < |s|
    ensures s[..n + 1] == [s[0]] + s[1..][..n]
  {
  }

  lemma FaultLater(t: Thresholds, samples: seq<Sample>, nodes: seq<string>, now: Time, before: int, c: Coverage, i: nat)
    requires -1 <= before && nodes != [] && NodeFault(t, samples, nodes[0], now) == Sound
    requires FaultAt(t, samples, nodes[1..], now, FewestObservations(before, Times(samples, nodes[0])), c, i)
    ensures FaultAt(t, samples, nodes, now, before, c, i + 1)
  {
    FirstApart(nodes, Counted(c.fault, i));
    FewestStep(samples, before, nodes[0], nodes[1..][..Counted(c.fault, i)], c.observations);
  }

  lemma {:induction false} FaultFound(t: Thresholds, samples: seq<Sample>, nodes: seq<string>, now: Time, before: int, gpus: nat)
    returns (k: nat)
    requires -1 <= before && CheckNodes(t, samples, nodes, now, before, gpus).fault != Sound
    ensures CheckNodes(t, samples, nodes, now, before, gpus).gpus == gpus
    ensures FaultAt(t, samples, nodes, now, before, CheckNodes(t, samples, nodes, now, before, gpus), k)
  {
    k := 0;
    if NodeFault(t, samples, nodes[0], now) == Sound {
      var fewest := FewestObservations(before, Times(samples, nodes[0]));
      var i := FaultFound(t, samples, nodes[1..], now, fewest, gpus);
      FaultLater(t, samples, nodes, now, before, CheckNodes(t, samples, nodes[1..], now, fewest, gpus), i);
      k := i + 1;
    } else {
      FaultHere(t, samples, nodes, now, before, gpus);
    }
  }

  // What each fault says of the node.
  lemma FaultSays(t: Thresholds, samples: seq<Sample>, n: string, now: Time)
    ensures var fault := NodeFault(t, samples, n, now);
      && (fault == NoSamples <==> forall x :: x in samples ==> x.node != n)
      && (fault == VaryingGPUs <==> Varies(samples, n))
      && (fault == TooFewObservations ==> |set x | x in samples && x.node == n :: x.timestamp| < t.minSamples)
      && (fault == Stale ==> forall x :: OfNode(samples, n, x) ==> x.timestamp + t.maxSampleGap < now)
      && (fault == NotYetCovered ==> forall x :: OfNode(samples, n, x) ==> now + t.maxSampleGap < x.timestamp + t.window)
      && (fault == Gap ==> exists x :: OfNode(samples, n, x) && HoleAfter(t, samples, n, x))
  {
    assert Times(samples, n) == set x | x in samples && x.node == n :: x.timestamp;
    assert (forall x :: x in samples ==> x.node != n) <==> Times(samples, n) == {} by {
      assert forall x :: x in samples && x.node == n ==> x.timestamp in Times(samples, n);
    }
    UniformMeans(samples, n);
    EndsMean(t, samples, n, now);
    HolesMean(t, samples, n);
    assert Times(samples, n) == {} ==> Uniform(samples, n);
  }

  // Where a node is at fault it is the first that was not seen throughout, and the
  // evidence is reported with how often the node seen least often up to there was
  // seen; with -1 if no node was counted.
  lemma FaultMeans(t: Thresholds, samples: seq<Sample>, j: Job, now: Time) returns (k: nat)
    requires t.Valid() && CoverageOf(t, samples, j, now).fault !in {Sound, NotJudgeable, NoNodes, TooFewGPUs}
    ensures k < |j.nodes| && !SeenThroughout(t, samples, j.nodes[k], now)
    ensures forall i :: 0 <= i < k ==> SeenThroughout(t, samples, j.nodes[i], now)
    ensures CoverageOf(t, samples, j, now).fault == NodeFault(t, samples, j.nodes[k], now)
    ensures var c, counted := CoverageOf(t, samples, j, now), j.nodes[..Counted(CoverageOf(t, samples, j, now).fault, k)];
      && c.gpus == |set x | x in samples :: (x.node, x.gpu)|
      && (counted == [] ==> c.observations == -1)
      && (forall n :: n in counted ==> c.observations <= |set x | x in samples && x.node == n :: x.timestamp|)
      && (counted != [] ==> exists n :: n in counted && c.observations == |set x | x in samples && x.node == n :: x.timestamp|)
  {
    k := FaultFound(t, samples, j.nodes, now, -1, |GPUs(samples)|);
    forall n ensures NodeFault(t, samples, n, now) == Sound <==> SeenThroughout(t, samples, n, now) {
      SoundIsCovered(t, samples, n, now);
      NodeCoveredMeans(t, samples, n, now);
    }
    assert GPUs(samples) == set x | x in samples :: (x.node, x.gpu);
    forall n ensures Times(samples, n) == set x | x in samples && x.node == n :: x.timestamp {
    }
  }

  // Sound evidence is reported with the number of GPUs it covers, and with how
  // often the node seen least often was seen.
  lemma ObservationsMean(t: Thresholds, samples: seq<Sample>, j: Job, now: Time)
    requires CoverageOf(t, samples, j, now).fault == Sound
    ensures var c := CoverageOf(t, samples, j, now);
      && c.gpus == |set x | x in samples :: (x.node, x.gpu)|
      && (forall n :: n in j.nodes ==> c.observations <= |set x | x in samples && x.node == n :: x.timestamp|)
      && exists n :: n in j.nodes && c.observations == |set x | x in samples && x.node == n :: x.timestamp|
  {
    FewestOf(t, samples, j.nodes, now, -1, |GPUs(samples)|);
    assert GPUs(samples) == set x | x in samples :: (x.node, x.gpu);
    forall n ensures Times(samples, n) == set x | x in samples && x.node == n :: x.timestamp {
    }
  }
}
