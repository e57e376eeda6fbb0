// How the daemon is put together from its configuration.
module Startup {
  import opened Telemetry
  import opened Runs
  import opened Actions
  import opened Daemon
  import opened Reapers
  import opened Config

  datatype Launched = Launched(reaper: Reaper) | Rejected

  function Arranged(s: Settings, exempt: Job -> bool, answers: nat -> bool, perNode: bool, localNode: string): Setup
    requires Effective(s).Some?
  {
    Setup(RulesOf(s, exempt), WiringOf(s.enforce, answers), perNode, localNode)
  }

  // A configuration that is accepted makes a daemon in the state in which every
  // history begins, wired as its mode says; one that is not makes none.
  method Launch(s: Settings, exempt: Job -> bool, answers: nat -> bool, perNode: bool, localNode: string) returns (launched: Launched)
    ensures launched.Launched? <==> Acceptable(s)
    ensures launched.Launched? ==>
      && fresh(launched.reaper) && launched.reaper.Valid()
      && s.thresholds.Valid()
      && launched.reaper.Arrangement() == Arranged(s, exempt, answers, perNode, localNode)
      && launched.reaper.View() == World(Did(RulesOf(s, exempt), NOTHING, Allowing(Signatures(s.allowCancel))), [])
  {
    var ok := Validate(s);
    if !ok {
      return Rejected;
    }
    var built := NewEngine(s, exempt);
    var cluster := NewClusterActor(s.enforce, answers);
    var reaper := new Reaper(built.engine, cluster, perNode, localNode);
    return Launched(reaper);
  }
}
