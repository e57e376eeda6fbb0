// Telemetry samples and Slurm jobs: the two records the daemon brings together.
module Telemetry {

  // Nanoseconds since the zero instant of the clock. The zero instant itself
  // stands for "unset", as the zero value of a Go time does.
  type Time = int
  type Duration = int

  const UNSET: Time := 0

  // One observation of one GPU. A value whose flag is false was not read.
  datatype Sample = Sample(
    timestamp: Time,
    node: string,
    gpu: int,
    util: real,
    memUsed: nat,
    memTotal: nat,
    power: real,
    pids: seq<int>,
    utilKnown: bool,
    memKnown: bool,
    powerKnown: bool,
    pidsKnown: bool,
    mig: bool,
    jobs: seq<string>)
  {
    predicate Judgeable() {
      utilKnown && memKnown && !mig
    }

    function MemUsedFraction(): (r: real)
      ensures 0.0 <= r
      ensures memUsed <= memTotal ==> r <= 1.0
    {
      if !memKnown || memTotal == 0 then 0.0 else memUsed as real / memTotal as real
    }
  }

  // The fraction is used over total, and nothing if there is no total.
  lemma FractionMeans(s: Sample)
    ensures s.memKnown && 0 < s.memTotal ==> s.MemUsedFraction() * s.memTotal as real == s.memUsed as real
    ensures !s.memKnown || s.memTotal == 0 ==> s.MemUsedFraction() == 0.0
  {
  }

  datatype Job = Job(
    id: string,
    name: string,
    user: string,
    account: string,
    partition: string,
    qos: string,
    state: string,
    startTime: Time,
    nodes: seq<string>,
    gpuCount: int)
  {
    function Age(now: Time): Duration {
      if startTime == UNSET then 0 else now - startTime
    }
  }

  // No job is listed twice.
  predicate Distinct(jobs: seq<Job>) {
    forall a, b :: 0 <= a < b < |jobs| ==> jobs[a].id != jobs[b].id
  }
}
