// Ordering the configured stages, and what "the last stage reached" then means.
module Stages {
  import opened Telemetry
  import opened Policy

  // A stable insertion: behind every stage that is not later.
  function Insert(sorted: seq<Stage>, s: Stage): seq<Stage> {
    if sorted == [] || sorted[|sorted| - 1].after <= s.after then sorted + [s]
    else Insert(sorted[..|sorted| - 1], s) + [sorted[|sorted| - 1]]
  }

  function Sorted(stages: seq<Stage>): seq<Stage> {
    if stages == [] then []
    else Insert(Sorted(stages[..|stages| - 1]), stages[|stages| - 1])
  }

  lemma InsertEarlier(sorted: seq<Stage>, s: Stage, k: nat)
    requires 0 < k <= |sorted| && s.after < sorted[k - 1].after
    ensures Insert(sorted[..k], s) + sorted[k..] == Insert(sorted[..k - 1], s) + sorted[k - 1..]
  {
    var rest := Insert(sorted[..k - 1], s);
    assert sorted[..k][..k - 1] == sorted[..k - 1];
    assert Insert(sorted[..k], s) == rest + [sorted[k - 1]];
    assert sorted[k - 1..] == [sorted[k - 1]] + sorted[k..];
    assert rest + [sorted[k - 1]] + sorted[k..] == rest + ([sorted[k - 1]] + sorted[k..]);
  }

  lemma InsertHere(sorted: seq<Stage>, s: Stage, k: nat)
    requires k <= |sorted| && (0 < k ==> sorted[k - 1].after <= s.after)
    ensures Insert(sorted[..k], s) == sorted[..k] + [s]
  {
  }

  method InsertStage(sorted: seq<Stage>, s: Stage) returns (grown: seq<Stage>)
    ensures grown == Insert(sorted, s)
  {
    var k := |sorted|;
    assert sorted[..k] == sorted && Insert(sorted, s) + sorted[k..] == Insert(sorted, s);
    while 0 < k && s.after < sorted[k - 1].after
      invariant 0 <= k <= |sorted|
      invariant Insert(sorted, s) == Insert(sorted[..k], s) + sorted[k..]
    {
      InsertEarlier(sorted, s, k);
      k := k - 1;
    }
    InsertHere(sorted, s, k);
    grown := sorted[..k] + [s] + sorted[k..];
  }

  method Sort(stages: seq<Stage>) returns (sorted: seq<Stage>)
    ensures sorted == Sorted(stages)
  {
    sorted := [];
    for i := 0 to |stages|
      invariant sorted == Sorted(stages[..i])
    {
      assert stages[..i + 1][..i] == stages[..i];
      sorted := InsertStage(sorted, stages[i]);
    }
    assert stages[..|stages|] == stages;
  }

  ghost predicate InOrder(stages: seq<Stage>) {
    forall i, k :: 0 <= i < k < |stages| ==> stages[i].after <= stages[k].after
  }

  lemma {:induction false} InsertContents(sorted: seq<Stage>, s: Stage)
    ensures multiset(Insert(sorted, s)) == multiset(sorted) + multiset{s}
  {
    if sorted != [] && s.after < sorted[|sorted| - 1].after {
      var n := |sorted| - 1;
      InsertContents(sorted[..n], s);
      assert sorted == sorted[..n] + [sorted[n]];
    }
  }

  lemma {:induction false} InsertKeepsOrder(sorted: seq<Stage>, s: Stage)
    requires InOrder(sorted)
    ensures InOrder(Insert(sorted, s))
    ensures sorted != [] && s.after < sorted[|sorted| - 1].after ==>
      forall x :: x in Insert(sorted, s) ==> x.after <= sorted[|sorted| - 1].after
  {
    if sorted != [] && s.after < sorted[|sorted| - 1].after {
      var n := |sorted| - 1;
      var rest := Insert(sorted[..n], s);
      InsertKeepsOrder(sorted[..n], s);
      InsertContents(sorted[..n], s);
      forall x | x in rest ensures x.after <= sorted[n].after {
        assert x in multiset(rest);
        assert x in sorted[..n] || x == s;
      }
      OneMoreInOrder(rest, sorted[n]);
    }
  }

  lemma OneMoreInOrder(stages: seq<Stage>, last: Stage)
    requires InOrder(stages) && forall x :: x in stages ==> x.after <= last.after
    ensures InOrder(stages + [last])
  {
  }

  // Sorting orders the stages and neither loses nor invents one.
  lemma {:induction false} SortedIsOrdered(stages: seq<Stage>)
    ensures InOrder(Sorted(stages))
    ensures multiset(Sorted(stages)) == multiset(stages)
  {
    if stages != [] {
      var n := |stages| - 1;
      SortedIsOrdered(stages[..n]);
      InsertKeepsOrder(Sorted(stages[..n]), stages[n]);
      InsertContents(Sorted(stages[..n]), stages[n]);
      assert stages == stages[..n] + [stages[n]];
    }
  }

  // Among the stages of a configuration whose time has come, stage i is the
  // one with the longest time, and the last such in the order written.
  ghost predicate IsReached(stages: seq<Stage>, dwell: Duration, i: int) {
    && 0 <= i < |stages|
    && stages[i].after <= dwell
    && forall k :: 0 <= k < |stages| && stages[k].after <= dwell ==>
         stages[k].after < stages[i].after || (stages[k].after == stages[i].after && k <= i)
  }

  // The stage the walk over sorted stages ends on; none when no time has come.
  ghost function Reached(sorted: seq<Stage>, dwell: Duration): (r: seq<Stage>)
    ensures |r| <= 1
    ensures StageFor(sorted, dwell) == if r == [] then Watching else r[0].verdict
  {
    if sorted == [] then []
    else if sorted[|sorted| - 1].after <= dwell then [sorted[|sorted| - 1]]
    else Reached(sorted[..|sorted| - 1], dwell)
  }

  lemma {:induction false} ReachedAfterInsert(sorted: seq<Stage>, s: Stage, dwell: Duration)
    requires InOrder(sorted)
    ensures var r := Reached(sorted, dwell);
      Reached(Insert(sorted, s), dwell) == if s.after <= dwell && (r == [] || r[0].after <= s.after) then [s] else r
  {
    if sorted == [] || sorted[|sorted| - 1].after <= s.after {
      var grown := sorted + [s];
      assert grown[..|grown| - 1] == sorted;
      ReachedIsEarlier(sorted, dwell);
    } else {
      var n := |sorted| - 1;
      var grown := Insert(sorted[..n], s) + [sorted[n]];
      assert grown[..|grown| - 1] == Insert(sorted[..n], s);
      ReachedAfterInsert(sorted[..n], s, dwell);
    }
  }

  lemma {:induction false} ReachedIsEarlier(sorted: seq<Stage>, dwell: Duration)
    requires InOrder(sorted)
    ensures var r := Reached(sorted, dwell); r != [] ==> r[0].after <= dwell && r[0].after <= sorted[|sorted| - 1].after
  {
    if sorted != [] && dwell < sorted[|sorted| - 1].after {
      ReachedIsEarlier(sorted[..|sorted| - 1], dwell);
    }
  }

  // Stage i is the one reached; there is none if i is -1.
  ghost predicate Reaches(stages: seq<Stage>, dwell: Duration, i: int) {
    if i == -1 then forall s :: s in stages ==> dwell < s.after else IsReached(stages, dwell, i)
  }

  lemma ReachesGrows(stages: seq<Stage>, last: Stage, dwell: Duration, i: int)
    requires Reaches(stages, dwell, i)
    ensures Reaches(stages + [last], dwell, if last.after <= dwell && (i == -1 || stages[i].after <= last.after) then |stages| else i)
  {
    assert forall k :: 0 <= k < |stages| ==> stages[k] in stages;
  }

  lemma {:induction false} ReachedMeans(stages: seq<Stage>, dwell: Duration) returns (i: int)
    ensures Reaches(stages, dwell, i)
    ensures Reached(Sorted(stages), dwell) == if i == -1 then [] else [stages[i]]
  {
    i := -1;
    if stages != [] {
      var rest, last := stages[..|stages| - 1], stages[|stages| - 1];
      i := ReachedMeans(rest, dwell);
      ReachesGrows(rest, last, dwell, i);
      assert stages == rest + [last];
      SortedIsOrdered(rest);
      ReachedAfterInsert(Sorted(rest), last, dwell);
      if last.after <= dwell && (i == -1 || rest[i].after <= last.after) {
        i := |rest|;
      }
    }
  }

  // What the walk over the sorted stages means for the stages as configured.
  lemma StageForMeaning(stages: seq<Stage>, dwell: Duration) returns (i: int)
    ensures i == -1 ==> StageFor(Sorted(stages), dwell) == Watching && forall s :: s in stages ==> dwell < s.after
    ensures i != -1 ==> IsReached(stages, dwell, i) && StageFor(Sorted(stages), dwell) == stages[i].verdict
  {
    i := ReachedMeans(stages, dwell);
  }

  // ---- Does a longer breach ever call for less? ----

  // Stage i is the one that counts for its time: no later line names that time.
  predicate Counts(stages: seq<Stage>, i: nat)
    requires i < |stages|
  {
    forall k :: i < k < |stages| ==> stages[k].after != stages[i].after
  }

  // What a configuration would have to look like: no stage below Watching, and
  // none below an earlier one, as far as they count.
  predicate InStep(stages: seq<Stage>) {
    && (forall i :: 0 <= i < |stages| && Counts(stages, i) ==> !stages[i].verdict.Below(Watching))
    && (forall i, k :: 0 <= i < |stages| && 0 <= k < |stages| && Counts(stages, i) && Counts(stages, k) ==>
          stages[i].after < stages[k].after ==> !stages[k].verdict.Below(stages[i].verdict))
  }

  ghost predicate NeverDrops(stages: seq<Stage>) {
    forall d, e :: d <= e ==> !StageFor(Sorted(stages), e).Below(StageFor(Sorted(stages), d))
  }

  lemma ReachedAtItsTime(stages: seq<Stage>, i: nat)
    requires i < |stages| && Counts(stages, i)
    ensures StageFor(Sorted(stages), stages[i].after) == stages[i].verdict
  {
    var k := StageForMeaning(stages, stages[i].after);
    assert stages[i] in stages;
  }

  lemma {:induction false} Earliest(stages: seq<Stage>) returns (d: Duration)
    ensures forall s :: s in stages ==> d < s.after
  {
    d := 0;
    if stages != [] {
      d := Earliest(stages[..|stages| - 1]);
      var last := stages[|stages| - 1];
      assert stages == stages[..|stages| - 1] + [last];
      if last.after <= d {
        d := last.after - 1;
      }
    }
  }

  lemma NothingReached(stages: seq<Stage>, d: Duration)
    requires forall s :: s in stages ==> d < s.after
    ensures StageFor(Sorted(stages), d) == Watching
  {
    assert forall k :: 0 <= k < |stages| ==> stages[k] in stages;
    var i := StageForMeaning(stages, d);
  }

  lemma InStepIsNeeded(stages: seq<Stage>)
    requires NeverDrops(stages)
    ensures InStep(stages)
  {
    var d := Earliest(stages);
    NothingReached(stages, d);
    forall i | 0 <= i < |stages| && Counts(stages, i) ensures !stages[i].verdict.Below(Watching) {
      assert stages[i] in stages;
      ReachedAtItsTime(stages, i);
      assert !StageFor(Sorted(stages), stages[i].after).Below(StageFor(Sorted(stages), d));
    }
    forall i, k | 0 <= i < |stages| && 0 <= k < |stages| && Counts(stages, i) && Counts(stages, k) && stages[i].after < stages[k].after
      ensures !stages[k].verdict.Below(stages[i].verdict)
    {
      ReachedAtItsTime(stages, i);
      ReachedAtItsTime(stages, k);
      assert !StageFor(Sorted(stages), stages[k].after).Below(StageFor(Sorted(stages), stages[i].after));
    }
  }

  lemma InStepIsEnough(stages: seq<Stage>, d: Duration, e: Duration)
    requires InStep(stages) && d <= e
    ensures !StageFor(Sorted(stages), e).Below(StageFor(Sorted(stages), d))
  {
    var i := StageForMeaning(stages, d);
    var k := StageForMeaning(stages, e);
    if i != -1 {
      assert stages[i] in stages;
      assert Counts(stages, i) && Counts(stages, k);
    } else if k != -1 {
      assert Counts(stages, k);
    }
  }

  // A breach that lasts longer never calls for a lower verdict if and only if
  // the stages are in step.
  lemma NeverDropsIff(stages: seq<Stage>)
    ensures NeverDrops(stages) <==> InStep(stages)
  {
    if NeverDrops(stages) {
      InStepIsNeeded(stages);
    }
    if InStep(stages) {
      forall d: Duration, e | d <= e ensures !StageFor(Sorted(stages), e).Below(StageFor(Sorted(stages), d)) {
        InStepIsEnough(stages, d, e);
      }
    }
  }

  // A breach calls for v at least, exactly from dwell d on.
  ghost predicate CallsFrom(sorted: seq<Stage>, v: Verdict, d: Duration) {
    forall e :: !StageFor(sorted, e).Below(v) <==> d <= e
  }

  // The first line to call for v at least, among those that count.
  lemma {:induction false} FirstCalling(stages: seq<Stage>, v: Verdict, n: nat) returns (i: int)
    requires n <= |stages|
    ensures i == -1 ==> forall k :: 0 <= k < n && Counts(stages, k) ==> stages[k].verdict.Below(v)
    ensures i != -1 ==>
      && 0 <= i < n && Counts(stages, i) && !stages[i].verdict.Below(v)
      && forall k :: 0 <= k < n && Counts(stages, k) && !stages[k].verdict.Below(v) ==> stages[i].after <= stages[k].after
  {
    i := -1;
    if n > 0 {
      i := FirstCalling(stages, v, n - 1);
      if Counts(stages, n - 1) && !stages[n - 1].verdict.Below(v) && (i == -1 || stages[n - 1].after < stages[i].after) {
        i := n - 1;
      }
    }
  }

  // Stages in step that call for v at all call for it from some dwell on.
  lemma {:induction false} CallsFromSomeDwell(stages: seq<Stage>, v: Verdict, i: nat) returns (d: Duration)
    requires InStep(stages) && Watching.Below(v)
    requires i < |stages| && Counts(stages, i) && !stages[i].verdict.Below(v)
    ensures CallsFrom(Sorted(stages), v, d)
  {
    var first := FirstCalling(stages, v, |stages|);
    d := stages[first].after;
    ReachedAtItsTime(stages, first);
    forall e ensures !StageFor(Sorted(stages), e).Below(v) <==> d <= e {
      if d <= e {
        InStepIsEnough(stages, d, e);
      } else {
        var m := StageForMeaning(stages, e);
        assert m != -1 ==> Counts(stages, m);
      }
    }
  }
}
