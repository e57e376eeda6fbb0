// Runs: any sequence of operations on an engine, with the memory between them
// and what every evaluation reported.
module Runs {
  import opened Telemetry
  import opened Policy

  datatype Op =
    | Observing(j: Job, samples: seq<Sample>, now: Time)
    | Evaluating(j: Job, now: Time)
    | Confirming(j: Job, at: Time)
    | Dropping(id: string)
    | Forgetting(active: set<string>)
    | Allowing(sigs: seq<Signature>)

  function Next(c: Rules, m: Memory, op: Op): Memory {
    match op
    case Observing(j, samples, now) => Observe(c, m, j, samples, now)
    case Evaluating(j, now) => Evaluate(c, m, j, now).0
    case Confirming(j, at) => ConfirmDrain(m, j, at)
    case Dropping(id) => Drop(m, id)
    case Forgetting(active) => Forget(m, active)
    case Allowing(sigs) => AllowCancel(m, sigs)
  }

  // ms[i] is the memory before operation i; fs[i] is what operation i reported
  // if it was an evaluation.
  datatype Run = Run(ops: seq<Op>, ms: seq<Memory>, fs: seq<Finding>)

  // What stands in fs for an operation that reports nothing.
  const UNREPORTED := NotJudged(Job("", "", "", "", "", "", "", UNSET, [], 0), NoGPUs)

  const NOTHING := Run([], [INITIAL], [])

  ghost predicate Stepped(c: Rules, run: Run, i: nat)
    requires i < |run.ops| && |run.ms| == |run.ops| + 1 && |run.fs| == |run.ops|
  {
    && run.ms[i + 1] == Next(c, run.ms[i], run.ops[i])
    && (run.ops[i].Evaluating? ==> run.fs[i] == Evaluate(c, run.ms[i], run.ops[i].j, run.ops[i].now).1)
  }

  // The run starts with an empty engine and follows its operations.
  ghost predicate IsRun(c: Rules, run: Run) {
    && |run.ms| == |run.ops| + 1 && |run.fs| == |run.ops|
    && run.ms[0] == INITIAL
    && forall i {:trigger Stepped(c, run, i)} :: 0 <= i < |run.ops| ==> Stepped(c, run, i)
  }

  function Last(run: Run): Memory
    requires |run.ms| == |run.ops| + 1
  {
    run.ms[|run.ops|]
  }

  // The run with one more operation.
  function Did(c: Rules, run: Run, op: Op): Run
    requires |run.ms| == |run.ops| + 1
  {
    var m := Last(run);
    Run(run.ops + [op], run.ms + [Next(c, m, op)],
        run.fs + [if op.Evaluating? then Evaluate(c, m, op.j, op.now).1 else UNREPORTED])
  }

  lemma DidIsRun(c: Rules, run: Run, op: Op)
    requires IsRun(c, run)
    ensures IsRun(c, Did(c, run, op))
  {
    var longer := Did(c, run, op);
    forall i | 0 <= i < |longer.ops| ensures Stepped(c, longer, i) {
      if i < |run.ops| {
        assert Stepped(c, run, i);
      }
    }
  }

  // Every sequence of operations has a run.
  lemma {:induction false} EveryRunExists(c: Rules, ops: seq<Op>) returns (run: Run)
    ensures IsRun(c, run) && run.ops == ops
  {
    run := NOTHING;
    if ops != [] {
      run := EveryRunExists(c, ops[..|ops| - 1]);
      DidIsRun(c, run, ops[|ops| - 1]);
      run := Did(c, run, ops[|ops| - 1]);
    }
  }
}
