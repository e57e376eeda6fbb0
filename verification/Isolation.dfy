// Jobs do not interfere with one another, and a job that is dropped, forgotten
// or requeued starts from nothing.
module Isolation {
  import opened Telemetry
  import opened Policy
  import opened Runs

  // The operation can bear on the job called id.
  predicate Concerns(op: Op, id: string) {
    match op
    case Observing(j, _, _) => j.id == id
    case Evaluating(j, _) => j.id == id
    case Confirming(j, _) => j.id == id
    case Dropping(i) => i == id
    case Forgetting(_) => true
    case Allowing(_) => true
  }

  predicate Names(op: Op, id: string) {
    !op.Forgetting? && !op.Allowing? && Concerns(op, id)
  }

  function Project(ops: seq<Op>, id: string): seq<Op> {
    if ops == [] then []
    else
      var rest, last := Project(ops[..|ops| - 1], id), ops[|ops| - 1];
      if Concerns(last, id) then rest + [last] else rest
  }

  // The run without the job's own operations.
  function Without(ops: seq<Op>, id: string): seq<Op> {
    if ops == [] then []
    else
      var rest, last := Without(ops[..|ops| - 1], id), ops[|ops| - 1];
      if Names(last, id) then rest else rest + [last]
  }

  ghost function After(c: Rules, m: Memory, ops: seq<Op>): Memory {
    if ops == [] then m else Next(c, After(c, m, ops[..|ops| - 1]), ops[|ops| - 1])
  }

  // Everything ever reported about the job, in order.
  ghost function Findings(c: Rules, m: Memory, ops: seq<Op>, id: string): seq<Finding> {
    if ops == [] then []
    else
      var before, last := ops[..|ops| - 1], ops[|ops| - 1];
      Findings(c, m, before, id)
      + if last.Evaluating? && last.j.id == id then [Evaluate(c, After(c, m, before), last.j, last.now).1] else []
  }

  // The memory after the operations, and the findings about a job, are those
  // of the run of the operations.
  lemma {:induction false} AfterIsLast(c: Rules, run: Run, n: nat)
    requires IsRun(c, run) && n <= |run.ops|
    ensures After(c, INITIAL, run.ops[..n]) == run.ms[n]
  {
    if n > 0 {
      AfterIsLast(c, run, n - 1);
      assert run.ops[..n][..n - 1] == run.ops[..n - 1];
      assert Stepped(c, run, n - 1);
    }
  }

  ghost predicate Same(m: Memory, m': Memory, id: string) {
    && m.cancellable == m'.cancellable
    && (id in m.jobs <==> id in m'.jobs)
    && (id in m.jobs ==> m.jobs[id] == m'.jobs[id])
  }

  lemma NextSame(c: Rules, m: Memory, m': Memory, op: Op, id: string)
    requires Same(m, m', id)
    ensures Same(Next(c, m, op), Next(c, m', op), id)
    ensures op.Evaluating? && op.j.id == id ==> Evaluate(c, m, op.j, op.now).1 == Evaluate(c, m', op.j, op.now).1
  {
  }

  lemma NextOther(c: Rules, m: Memory, op: Op, id: string)
    requires !Concerns(op, id)
    ensures Same(Next(c, m, op), m, id)
  {
  }

  // What is reported about a job in any interleaved run is what is reported in
  // the run of its own operations alone.
  lemma {:induction false} Noninterference(c: Rules, ops: seq<Op>, id: string)
    ensures Findings(c, INITIAL, ops, id) == Findings(c, INITIAL, Project(ops, id), id)
    ensures Same(After(c, INITIAL, ops), After(c, INITIAL, Project(ops, id)), id)
  {
    if ops != [] {
      var before, last := ops[..|ops| - 1], ops[|ops| - 1];
      var own := Project(before, id);
      Noninterference(c, before, id);
      if Concerns(last, id) {
        var longer := own + [last];
        assert longer[..|longer| - 1] == own && longer[|longer| - 1] == last;
        NextSame(c, After(c, INITIAL, before), After(c, INITIAL, own), last, id);
      } else {
        NextOther(c, After(c, INITIAL, before), last, id);
      }
    }
  }

  // The two memories hold the same about one incarnation; nothing at all is as
  // good as a record with nothing in it.
  ghost predicate SameFor(m: Memory, m': Memory, id: string, start: Time) {
    && m.cancellable == m'.cancellable
    && RecordOf(m, id, start) == RecordOf(m', id, start)
  }

  ghost function RecordOf(m: Memory, id: string, start: Time): JobRecord {
    if id in m.jobs && m.jobs[id].startTime == start then m.jobs[id] else FreshRecord(start)
  }

  // Operations on the job are on this incarnation.
  ghost predicate Only(ops: seq<Op>, id: string, start: Time) {
    forall op :: op in ops && Names(op, id) && !op.Dropping? ==> op.j.startTime == start
  }

  lemma NextSameFor(c: Rules, m: Memory, m': Memory, op: Op, id: string, start: Time)
    requires SameFor(m, m', id, start) && Only([op], id, start)
    ensures SameFor(Next(c, m, op), Next(c, m', op), id, start)
    ensures op.Evaluating? && op.j.id == id ==> Evaluate(c, m, op.j, op.now).1 == Evaluate(c, m', op.j, op.now).1
  {
    assert op in [op];
    if !Concerns(op, id) {
      NextOther(c, m, op, id);
      NextOther(c, m', op, id);
    }
  }

  lemma {:induction false} SameFuture(c: Rules, m: Memory, m': Memory, ops: seq<Op>, id: string, start: Time)
    requires SameFor(m, m', id, start) && Only(ops, id, start)
    ensures SameFor(After(c, m, ops), After(c, m', ops), id, start)
    ensures Findings(c, m, ops, id) == Findings(c, m', ops, id)
  {
    if ops != [] {
      var before, last := ops[..|ops| - 1], ops[|ops| - 1];
      assert ops == before + [last];
      SameFuture(c, m, m', before, id, start);
      NextSameFor(c, After(c, m, before), After(c, m', before), last, id, start);
    }
  }

  lemma NextUnnamed(c: Rules, m: Memory, m': Memory, op: Op, id: string)
    requires id !in m.jobs && m.cancellable == m'.cancellable
    ensures !Names(op, id) ==> id !in Next(c, m, op).jobs && Next(c, m, op).cancellable == Next(c, m', op).cancellable
    ensures Names(op, id) ==> Next(c, m', op).cancellable == m.cancellable
  {
  }

  lemma {:induction false} NeverSeen(c: Rules, ops: seq<Op>, id: string)
    ensures id !in After(c, INITIAL, Without(ops, id)).jobs
    ensures After(c, INITIAL, Without(ops, id)).cancellable == After(c, INITIAL, ops).cancellable
  {
    if ops != [] {
      var before, last := ops[..|ops| - 1], ops[|ops| - 1];
      var others := Without(before, id);
      NeverSeen(c, before, id);
      NextUnnamed(c, After(c, INITIAL, others), After(c, INITIAL, before), last, id);
      if !Names(last, id) {
        var longer := others + [last];
        assert longer[..|longer| - 1] == others && longer[|longer| - 1] == last;
      }
    }
  }

  // After any history in which the job's record is gone, or belongs to another
  // start time, everything reported about the incarnation from then on is what
  // an engine that never saw the job would report.
  lemma FreshStart(c: Rules, history: seq<Op>, future: seq<Op>, id: string, start: Time)
    requires !Holds(After(c, INITIAL, history), id, start)
    requires Only(future, id, start)
    ensures Findings(c, After(c, INITIAL, history), future, id)
         == Findings(c, After(c, INITIAL, Without(history, id)), future, id)
  {
    NeverSeen(c, history, id);
    SameFuture(c, After(c, INITIAL, history), After(c, INITIAL, Without(history, id)), future, id, start);
  }

  // Dropping the job, or forgetting it among the jobs no longer running, makes
  // its record gone for every start time.
  lemma DropAndForgetErase(c: Rules, history: seq<Op>, op: Op, id: string, start: Time)
    requires op == Dropping(id) || (op.Forgetting? && id !in op.active)
    ensures !Holds(After(c, INITIAL, history + [op]), id, start)
  {
    assert (history + [op])[..|history|] == history;
  }
}
