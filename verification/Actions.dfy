// What a verdict does to the cluster: draining the job's nodes one by one, or
// cancelling the job, behind two independent gates.
module Actions {
  import opened Policy

  datatype Outcome = Noop | DryRun | Acted

  // One call that reached the cluster, and whether it succeeded.
  datatype Call = DrainCall(node: string, job: string, ok: bool) | CancelCall(job: string, ok: bool)

  // How the destructive path is wired: whether the controller is the real one,
  // whether the actor may call it, and how the cluster answers its n-th call.
  datatype Wiring = Wiring(live: bool, enforce: bool, answers: nat -> bool)

  function WiringOf(enforce: bool, answers: nat -> bool): Wiring {
    Wiring(enforce, enforce, answers)
  }

  // The calls made so far, what the actor did, and whether it did so without error.
  datatype Effect = Effect(calls: seq<Call>, outcome: Outcome, ok: bool)

  // One attempt; a controller that touches nothing always succeeds.
  function Attempt(w: Wiring, calls: seq<Call>, call: Call): Effect {
    if !w.live then Effect(calls, Acted, true)
    else
      var answer := w.answers(|calls|);
      var made := match call
        case DrainCall(node, job, _) => DrainCall(node, job, answer)
        case CancelCall(job, _) => CancelCall(job, answer);
      Effect(calls + [made], if answer then Acted else Noop, answer)
  }

  // The nodes are drained in order, up to the first failure.
  function DrainNodes(w: Wiring, calls: seq<Call>, job: string, nodes: seq<string>): Effect {
    if nodes == [] then Effect(calls, Acted, true)
    else
      var before := DrainNodes(w, calls, job, nodes[..|nodes| - 1]);
      if !before.ok then before else Attempt(w, before.calls, DrainCall(nodes[|nodes| - 1], job, true))
  }

  function Handled(w: Wiring, calls: seq<Call>, f: Finding): Effect {
    match f.verdict
    case Drain =>
      if f.drainConfirmed then Effect(calls, Noop, true)
      else if !w.enforce then Effect(calls, DryRun, true)
      else DrainNodes(w, calls, f.job.id, f.job.nodes)
    case Cancel =>
      if !w.enforce then Effect(calls, DryRun, true)
      else Attempt(w, calls, CancelCall(f.job.id, true))
    case _ => Effect(calls, Noop, true)
  }

  // ---- What that means ----

  // What a drain of these nodes sends: successful calls in the order of the
  // nodes, all of them, or up to one that failed.
  ghost predicate DrainTrace(made: seq<Call>, job: string, nodes: seq<string>, ok: bool) {
    && |made| <= |nodes|
    && (ok <==> forall i :: 0 <= i < |made| ==> made[i].ok)
    && (ok ==> |made| == |nodes|)
    && (!ok ==> made != [])
    && forall i :: 0 <= i < |made| ==> made[i] == DrainCall(nodes[i], job, ok || i < |made| - 1)
  }

  lemma {:induction false} DrainSends(w: Wiring, calls: seq<Call>, job: string, nodes: seq<string>)
    requires w.live
    ensures var e := DrainNodes(w, calls, job, nodes);
      && calls <= e.calls
      && DrainTrace(e.calls[|calls|..], job, nodes, e.ok)
      && (e.outcome == Acted <==> e.ok)
  {
    if nodes != [] {
      DrainSends(w, calls, job, nodes[..|nodes| - 1]);
      var before := DrainNodes(w, calls, job, nodes[..|nodes| - 1]);
      var e := DrainNodes(w, calls, job, nodes);
      if before.ok {
        assert e.calls[|calls|..] == before.calls[|calls|..] + [e.calls[|before.calls|]];
      }
    }
  }

  lemma {:induction false} DrainsNothing(w: Wiring, calls: seq<Call>, job: string, nodes: seq<string>)
    requires !w.live
    ensures DrainNodes(w, calls, job, nodes) == Effect(calls, Acted, true)
  {
    if nodes != [] {
      DrainsNothing(w, calls, job, nodes[..|nodes| - 1]);
    }
  }

  // Either gate alone keeps every call from the cluster.
  lemma EitherGateSuffices(w: Wiring, calls: seq<Call>, f: Finding)
    requires !w.live || !w.enforce
    ensures Handled(w, calls, f).calls == calls && Handled(w, calls, f).ok
  {
    if !w.live {
      DrainsNothing(w, calls, f.job.id, f.job.nodes);
    }
  }

  // What one finding sends with both gates open: nothing, one cancellation of a
  // job found at Cancel, or the drain of a job found at Drain that is not yet
  // drained. Having acted on a drain means every node was drained.
  lemma HandleSends(w: Wiring, calls: seq<Call>, f: Finding)
    requires w.live && w.enforce
    ensures var e := Handled(w, calls, f);
      && calls <= e.calls
      && var made := e.calls[|calls|..];
      && (f.verdict == Drain && !f.drainConfirmed ==>
           DrainTrace(made, f.job.id, f.job.nodes, e.ok) && (e.outcome == Acted <==> e.ok))
      && (f.verdict == Cancel ==> made == [CancelCall(f.job.id, e.ok)])
      && (f.verdict != Cancel && !(f.verdict == Drain && !f.drainConfirmed) ==> made == [] && e.outcome == Noop && e.ok)
  {
    if f.verdict == Drain {
      DrainSends(w, calls, f.job.id, f.job.nodes);
    }
  }

  // ---- The objects ----

  // The cluster as the controller reaches it.
  class Controller {
    const live: bool
    const answers: nat -> bool
    var calls: seq<Call>

    constructor (live: bool, answers: nat -> bool)
      ensures this.live == live && this.answers == answers && calls == []
    {
      this.live := live;
      this.answers := answers;
      calls := [];
    }

    method Drain(node: string, job: string) returns (ok: bool)
      modifies this
      ensures var e := Attempt(Wiring(live, true, answers), old(calls), DrainCall(node, job, true)); calls == e.calls && ok == e.ok
    {
      ok := true;
      if live {
        ok := answers(|calls|);
        calls := calls + [DrainCall(node, job, ok)];
      }
    }

    method Cancel(job: string) returns (ok: bool)
      modifies this
      ensures var e := Attempt(Wiring(live, true, answers), old(calls), CancelCall(job, true)); calls == e.calls && ok == e.ok
    {
      ok := true;
      if live {
        ok := answers(|calls|);
        calls := calls + [CancelCall(job, ok)];
      }
    }
  }

  class ClusterActor {
    const controller: Controller
    const enforce: bool

    constructor (controller: Controller, enforce: bool)
      ensures this.controller == controller && this.enforce == enforce
    {
      this.controller := controller;
      this.enforce := enforce;
    }

    function Wired(): Wiring {
      Wiring(controller.live, enforce, controller.answers)
    }

    method Handle(f: Finding) returns (outcome: Outcome, ok: bool)
      modifies controller
      ensures Effect(controller.calls, outcome, ok) == Handled(Wired(), old(controller.calls), f)
    {
      match f.verdict {
        case Drain =>
          if f.drainConfirmed {
            return Noop, true;
          }
          outcome, ok := DrainJob(f.job.id, f.job.nodes);
        case Cancel =>
          outcome, ok := CancelJob(f.job.id);
        case _ =>
          return Noop, true;
      }
    }

    method DrainJob(job: string, nodes: seq<string>) returns (outcome: Outcome, ok: bool)
      modifies controller
      ensures Effect(controller.calls, outcome, ok) ==
        if enforce then DrainNodes(Wired(), old(controller.calls), job, nodes) else Effect(old(controller.calls), DryRun, true)
    {
      if !enforce {
        return DryRun, true;
      }
      for i := 0 to |nodes|
        invariant Effect(controller.calls, Acted, true) == DrainNodes(Wired(), old(controller.calls), job, nodes[..i])
      {
        assert nodes[..i + 1][..i] == nodes[..i];
        var drained := controller.Drain(nodes[i], job);
        if !drained {
          DrainStops(Wired(), old(controller.calls), job, nodes, i + 1);
          return Noop, false;
        }
      }
      assert nodes[..|nodes|] == nodes;
      return Acted, true;
    }

    method CancelJob(job: string) returns (outcome: Outcome, ok: bool)
      modifies controller
      ensures Effect(controller.calls, outcome, ok) ==
        if enforce then Attempt(Wired(), old(controller.calls), CancelCall(job, true)) else Effect(old(controller.calls), DryRun, true)
    {
      if !enforce {
        return DryRun, true;
      }
      ok := controller.Cancel(job);
      outcome := if ok then Acted else Noop;
    }
  }

  // A failed drain goes no further.
  lemma {:induction false} DrainStops(w: Wiring, calls: seq<Call>, job: string, nodes: seq<string>, n: nat)
    requires n <= |nodes| && !DrainNodes(w, calls, job, nodes[..n]).ok
    ensures DrainNodes(w, calls, job, nodes) == DrainNodes(w, calls, job, nodes[..n])
    decreases |nodes| - n
  {
    if n == |nodes| {
      assert nodes[..n] == nodes;
    } else {
      assert nodes[..n + 1][..n] == nodes[..n];
      DrainStops(w, calls, job, nodes, n + 1);
    }
  }

  // Observe mode closes both gates, enforce mode opens both.
  method NewClusterActor(enforce: bool, answers: nat -> bool) returns (actor: ClusterActor)
    ensures fresh(actor) && fresh(actor.controller)
    ensures actor.Wired() == WiringOf(enforce, answers) && actor.controller.calls == []
    ensures actor.enforce == enforce && actor.controller.live == enforce && actor.controller.answers == answers
  {
    var controller := new Controller(enforce, answers);
    actor := new ClusterActor(controller, enforce);
  }
}
