// Reducing the series of one page of dcgm-exporter to one sample a GPU. Bad or
// conflicting readings become unknown, and more data can only make a GPU look
// busier.
module Dcgm {
  import opened Wrappers
  import opened Telemetry
  import opened Hostlist
  import Evidence
  import Expansion

  datatype Metric = GPUUtil | GREngineActive | SMActive | FBUsed | FBFree | FBReserved | Power

  // One series. The value is missing when it is not a finite number; a stamp of
  // zero is none.
  datatype Series = Series(
    metric: Metric,
    gpu: string,
    uuid: string,
    instance: string,
    profile: string,
    job: string,
    value: Option<real>,
    stamp: Time)

  // When and where a page was read, and how old a stamped value may be.
  datatype Scrape = Scrape(node: string, at: Time, maxAge: Duration)

  function Index(x: Series): Option<int> {
    match Atoi(x.gpu)
    case None => None
    case Some(i) => if i < 0 then None else Some(i)
  }

  function StampOf(sc: Scrape, x: Series): Time {
    if x.stamp == 0 then sc.at else x.stamp
  }

  predicate Stale(sc: Scrape, x: Series) {
    x.stamp != 0 && 0 < sc.maxAge && (sc.maxAge < sc.at - x.stamp || sc.maxAge < x.stamp - sc.at)
  }

  // What the metric can physically report.
  predicate InRange(m: Metric, v: real) {
    && 0.0 <= v
    && match m
       case GPUUtil => v <= 100.0
       case GREngineActive => v <= 1.0
       case SMActive => v <= 1.0
       case Power => v < 100000.0
       case _ => v < 16777216.0
  }

  predicate Sound(sc: Scrape, x: Series) {
    x.value.Some? && !Stale(sc, x) && InRange(x.metric, x.value.value)
  }

  // What is stored of a value that is missing.
  function Stored(x: Series): real {
    if x.value.Some? then x.value.value else 0.0
  }

  // ---- What is accumulated for one GPU ----

  datatype Reading = Reading(values: seq<real>, valid: bool)

  datatype Device = Device(uuid: string, mig: bool, readings: map<Metric, Reading>, jobs: set<string>, newest: Time)

  const NEW := Device("", false, map[], {}, UNSET)

  function AddTo(sc: Scrape, d: Device, x: Series): Device {
    var was := if x.metric in d.readings then d.readings[x.metric] else Reading([], true);
    Device(
      if x.uuid != "" then x.uuid else d.uuid,
      d.mig || x.instance != "" || x.profile != "",
      d.readings[x.metric := Reading(was.values + [Stored(x)], was.valid && Sound(sc, x))],
      if x.job != "" then d.jobs + {x.job} else d.jobs,
      if d.newest < StampOf(sc, x) then StampOf(sc, x) else d.newest)
  }

  function Track(sc: Scrape, page: seq<Series>, gpu: int): Device {
    if page == [] then NEW
    else
      var last := page[|page| - 1];
      var before := Track(sc, page[..|page| - 1], gpu);
      if Index(last) == Some(gpu) then AddTo(sc, before, last) else before
  }

  // ---- What a page says, in no particular order ----

  predicate About(x: Series, gpu: int, m: Metric) {
    Index(x) == Some(gpu) && x.metric == m
  }

  ghost predicate Present(page: seq<Series>, gpu: int, m: Metric) {
    exists x :: x in page && About(x, gpu, m)
  }

  // Every series of the metric is sound and says v.
  ghost predicate Reads(sc: Scrape, page: seq<Series>, gpu: int, m: Metric, v: real) {
    && Present(page, gpu, m)
    && forall x :: x in page && About(x, gpu, m) ==> Sound(sc, x) && x.value == Some(v)
  }

  ghost predicate IsMIG(page: seq<Series>, gpu: int) {
    exists x :: x in page && Index(x) == Some(gpu) && (x.instance != "" || x.profile != "")
  }

  ghost predicate NamesJob(page: seq<Series>, gpu: int, job: string) {
    job != "" && exists x :: x in page && Index(x) == Some(gpu) && x.job == job
  }

  ghost predicate Newest(sc: Scrape, page: seq<Series>, gpu: int, at: Time) {
    && UNSET <= at
    && (forall x :: x in page && Index(x) == Some(gpu) ==> StampOf(sc, x) <= at)
    && (at == UNSET || exists x :: x in page && Index(x) == Some(gpu) && StampOf(sc, x) == at)
  }

  datatype Got = Absent | Unusable | Known(v: real)

  predicate Agree(vs: seq<real>) {
    vs != [] && forall v :: v in vs ==> v == vs[0]
  }

  function Get(d: Device, m: Metric): Got {
    if m !in d.readings then Absent
    else if !d.readings[m].valid || !Agree(d.readings[m].values) then Unusable
    else Known(d.readings[m].values[0])
  }

  function ReadingOf(d: Device, m: Metric): Option<Reading> {
    if m in d.readings then Some(d.readings[m]) else None
  }

  // What the accumulated readings of one metric mean.
  ghost predicate Tracks(sc: Scrape, page: seq<Series>, gpu: int, m: Metric, rd: Option<Reading>) {
    && (rd.Some? <==> Present(page, gpu, m))
    && (rd.Some? ==>
         && (rd.value.valid <==> forall x :: x in page && About(x, gpu, m) ==> Sound(sc, x))
         && (forall x :: x in page && About(x, gpu, m) ==> Stored(x) in rd.value.values)
         && (forall v :: v in rd.value.values ==> exists x :: x in page && About(x, gpu, m) && Stored(x) == v))
  }

  lemma TracksOther(sc: Scrape, page: seq<Series>, x: Series, gpu: int, m: Metric, rd: Option<Reading>)
    requires Tracks(sc, page, gpu, m, rd) && !About(x, gpu, m)
    ensures Tracks(sc, page + [x], gpu, m, rd)
  {
    assert forall y :: y in page + [x] && About(y, gpu, m) <==> y in page && About(y, gpu, m);
  }

  lemma TracksMore(sc: Scrape, page: seq<Series>, x: Series, gpu: int, m: Metric, rd: Option<Reading>)
    requires Tracks(sc, page, gpu, m, rd) && About(x, gpu, m)
    ensures var was := if rd.Some? then rd.value else Reading([], true);
      Tracks(sc, page + [x], gpu, m, Some(Reading(was.values + [Stored(x)], was.valid && Sound(sc, x))))
  {
    var was := if rd.Some? then rd.value else Reading([], true);
    assert forall y :: y in page + [x] <==> y in page || y == x;
    assert forall v :: v in was.values + [Stored(x)] <==> v in was.values || v == Stored(x);
    assert x in page + [x];
  }

  lemma {:induction false} TrackReadings(sc: Scrape, page: seq<Series>, gpu: int, m: Metric)
    ensures Tracks(sc, page, gpu, m, ReadingOf(Track(sc, page, gpu), m))
  {
    if page != [] {
      var rest, last := page[..|page| - 1], page[|page| - 1];
      var rd := ReadingOf(Track(sc, rest, gpu), m);
      TrackReadings(sc, rest, gpu, m);
      assert page == rest + [last];
      if About(last, gpu, m) {
        TracksMore(sc, rest, last, gpu, m, rd);
      } else {
        TracksOther(sc, rest, last, gpu, m, rd);
      }
    }
  }

  lemma GetMeans(sc: Scrape, page: seq<Series>, gpu: int, m: Metric)
    ensures var got := Get(Track(sc, page, gpu), m);
      && (got == Absent <==> !Present(page, gpu, m))
      && forall v :: got == Known(v) <==> Reads(sc, page, gpu, m, v)
  {
    TrackReadings(sc, page, gpu, m);
    var d := Track(sc, page, gpu);
    if m in d.readings {
      var vs := d.readings[m].values;
      var x :| x in page && About(x, gpu, m);
      assert Stored(x) in vs && vs[0] in vs;
    }
  }

  lemma {:induction false} TrackMIG(sc: Scrape, page: seq<Series>, gpu: int)
    ensures Track(sc, page, gpu).mig <==> IsMIG(page, gpu)
  {
    if page != [] {
      var rest, last := page[..|page| - 1], page[|page| - 1];
      TrackMIG(sc, rest, gpu);
      assert page == rest + [last];
    }
  }

  lemma {:induction false} TrackJobs(sc: Scrape, page: seq<Series>, gpu: int, job: string)
    ensures job in Track(sc, page, gpu).jobs <==> NamesJob(page, gpu, job)
  {
    if page != [] {
      var rest, last := page[..|page| - 1], page[|page| - 1];
      TrackJobs(sc, rest, gpu, job);
      assert page == rest + [last];
    }
  }

  // The UUID kept is one that some series of the GPU carries, if any does.
  lemma {:induction false} TrackUUID(sc: Scrape, page: seq<Series>, gpu: int)
    ensures var uuid := Track(sc, page, gpu).uuid;
      if uuid == "" then forall x :: x in page && Index(x) == Some(gpu) ==> x.uuid == ""
      else exists x :: x in page && Index(x) == Some(gpu) && x.uuid == uuid
  {
    if page != [] {
      var rest, last := page[..|page| - 1], page[|page| - 1];
      TrackUUID(sc, rest, gpu);
      assert page == rest + [last];
      assert last in page;
    }
  }

  lemma {:induction false} TrackNewest(sc: Scrape, page: seq<Series>, gpu: int)
    ensures Newest(sc, page, gpu, Track(sc, page, gpu).newest)
  {
    if page != [] {
      var rest, last := page[..|page| - 1], page[|page| - 1];
      TrackNewest(sc, rest, gpu);
      assert page == rest + [last];
      assert last in page;
    }
  }

  // ---- The sample ----

  const ACTIVITY: seq<Metric> := [GPUUtil, GREngineActive, SMActive]

  function Percent(m: Metric, v: real): real {
    if m == GPUUtil then v else v * 100.0
  }

  // The utilization of these activity readings: known when one was read and
  // none that is present is unusable, and then the largest of them.
  predicate UtilOf(gets: seq<Got>, util: real, known: bool)
    requires |gets| <= |ACTIVITY|
  {
    && (known <==> (exists i :: 0 <= i < |gets| && gets[i].Known?) && forall i :: 0 <= i < |gets| ==> gets[i] != Unusable)
    && (!known ==> util == 0.0)
    && (known ==>
         && 0.0 <= util && (forall i :: 0 <= i < |gets| && gets[i].Known? ==> Percent(ACTIVITY[i], gets[i].v) <= util)
         && (util == 0.0 || exists i :: 0 <= i < |gets| && gets[i].Known? && util == Percent(ACTIVITY[i], gets[i].v)))
  }

  function Activity(d: Device): seq<Got> {
    [Get(d, GPUUtil), Get(d, GREngineActive), Get(d, SMActive)]
  }

  const MIB: real := 1048576.0

  function Bytes(mib: real): nat {
    if mib <= 0.0 then 0 else (mib * MIB).Floor
  }

  // Memory is known when used and free were read, reserved was read if present,
  // and the total is not zero.
  function MemOf(used: Got, free: Got, reserved: Got): Option<(real, real)> {
    if used.Known? && free.Known? && reserved != Unusable then
      var total := used.v + free.v + if reserved.Known? then reserved.v else 0.0;
      if 0.0 < total then Some((used.v, total)) else None
    else None
  }

  ghost predicate Fits(sc: Scrape, gpu: int, d: Device, s: Sample) {
    && s.node == sc.node && s.gpu == gpu && s.timestamp == d.newest && s.mig == d.mig
    && UtilOf(Activity(d), s.util, s.utilKnown)
    && (var mem := MemOf(Get(d, FBUsed), Get(d, FBFree), Get(d, FBReserved));
        && s.memKnown == mem.Some?
        && (mem.Some? ==> s.memUsed == Bytes(mem.value.0) && s.memTotal == Bytes(mem.value.1)))
    && s.powerKnown == Get(d, Power).Known?
    && s.power == (if Get(d, Power).Known? then Get(d, Power).v else 0.0)
    && !s.pidsKnown && s.pids == []
    && (forall job :: job in s.jobs <==> job in d.jobs)
  }

  method CheckAgree(vs: seq<real>) returns (ok: bool)
    ensures ok == Agree(vs)
  {
    if |vs| == 0 {
      return false;
    }
    for i := 1 to |vs|
      invariant forall k :: 0 <= k < i ==> vs[k] == vs[0]
    {
      if vs[i] != vs[0] {
        assert vs[i] in vs;
        return false;
      }
    }
    return true;
  }

  method LargestOf(gets: seq<Got>) returns (util: real, known: bool)
    requires |gets| <= |ACTIVITY|
    ensures UtilOf(gets, util, known)
  {
    var have, broken := false, false;
    util := 0.0;
    for i := 0 to |gets|
      invariant have <==> exists k :: 0 <= k < i && gets[k].Known?
      invariant broken <==> exists k :: 0 <= k < i && gets[k] == Unusable
      invariant 0.0 <= util
      invariant forall k :: 0 <= k < i && gets[k].Known? ==> Percent(ACTIVITY[k], gets[k].v) <= util
      invariant util == 0.0 || exists k :: 0 <= k < i && gets[k].Known? && util == Percent(ACTIVITY[k], gets[k].v)
    {
      match gets[i] {
        case Absent =>
        case Unusable =>
          broken := true;
        case Known(v) =>
          have := true;
          if util < Percent(ACTIVITY[i], v) {
            util := Percent(ACTIVITY[i], v);
          }
      }
    }
    known := have && !broken;
    if !known {
      util := 0.0;
    }
  }

  method ListJobs(jobs: set<string>) returns (list: seq<string>)
    ensures forall job :: job in list <==> job in jobs
    ensures |list| == |jobs|
  {
    list := [];
    var rest := jobs;
    while rest != {}
      invariant rest <= jobs && |list| + |rest| == |jobs|
      invariant forall job :: job in list <==> job in jobs && job !in rest
    {
      var job :| job in rest;
      list := list + [job];
      rest := rest - {job};
    }
  }

  method CheckSeries(sc: Scrape, x: Series) returns (at: Time, ok: bool)
    ensures at == StampOf(sc, x) && ok == Sound(sc, x)
  {
    at, ok := sc.at, x.value.Some?;
    if x.stamp != 0 {
      at := x.stamp;
      if 0 < sc.maxAge && (sc.maxAge < sc.at - at || sc.maxAge < at - sc.at) {
        ok := false;
      }
    }
    if ok && !InRange(x.metric, x.value.value) {
      ok := false;
    }
  }

  class DcgmGPU {
    const index: int
    var uuid: string
    var mig: bool
    var readings: map<Metric, Reading>
    var jobs: set<string>
    var newest: Time

    constructor (index: int)
      ensures this.index == index && View() == NEW
    {
      this.index := index;
      uuid := "";
      mig := false;
      readings := map[];
      jobs := {};
      newest := UNSET;
    }

    ghost function View(): Device
      reads this
    {
      Device(uuid, mig, readings, jobs, newest)
    }

    method Add(sc: Scrape, x: Series)
      modifies this
      ensures View() == AddTo(sc, old(View()), x)
    {
      if x.uuid != "" {
        uuid := x.uuid;
      }
      if x.instance != "" || x.profile != "" {
        mig := true;
      }
      if x.job != "" {
        jobs := jobs + {x.job};
      }
      var at, ok := CheckSeries(sc, x);
      if newest < at {
        newest := at;
      }
      var rd := if x.metric in readings then readings[x.metric] else Reading([], true);
      readings := readings[x.metric := Reading(rd.values + [Stored(x)], rd.valid && ok)];
    }

    method Read(m: Metric) returns (got: Got)
      ensures got == Get(View(), m)
    {
      if m !in readings {
        return Absent;
      }
      var ok := CheckAgree(readings[m].values);
      if !readings[m].valid || !ok {
        return Unusable;
      }
      return Known(readings[m].values[0]);
    }

    method Reduce(sc: Scrape) returns (s: Sample)
      ensures Fits(sc, index, View(), s)
    {
      var a := Read(GPUUtil);
      var b := Read(GREngineActive);
      var c := Read(SMActive);
      var util, utilKnown := LargestOf([a, b, c]);
      var used := Read(FBUsed);
      var free := Read(FBFree);
      var reserved := Read(FBReserved);
      var mem := MemOf(used, free, reserved);
      var memUsed, memTotal := 0, 0;
      if mem.Some? {
        memUsed, memTotal := Bytes(mem.value.0), Bytes(mem.value.1);
      }
      var power := Read(Power);
      var list := ListJobs(jobs);
      s := Sample(newest, sc.node, index, util, memUsed, memTotal, if power.Known? then power.v else 0.0, [],
                  utilKnown, mem.Some?, power.Known?, false, mig, list);
    }
  }

  // ---- The page ----

  function Indexed(page: seq<Series>): set<int> {
    set x | x in page && Index(x).Some? :: Index(x).value
  }

  // What has been accumulated for these GPUs, one object for each.
  ghost predicate Held(sc: Scrape, page: seq<Series>, indices: set<int>, gpus: map<int, DcgmGPU>)
    reads gpus.Values
  {
    && gpus.Keys == indices
    && (forall i, k :: i in gpus && k in gpus && i != k ==> gpus[i] != gpus[k])
    && (forall i :: i in gpus ==> gpus[i].index == i && gpus[i].View() == Track(sc, page, i))
  }

  ghost predicate Accumulated(sc: Scrape, page: seq<Series>, gpus: map<int, DcgmGPU>)
    reads gpus.Values
  {
    Held(sc, page, Indexed(page), gpus)
  }

  lemma TrackPush(sc: Scrape, page: seq<Series>, x: Series, gpu: int)
    ensures Track(sc, page + [x], gpu) ==
      if Index(x) == Some(gpu) then AddTo(sc, Track(sc, page, gpu), x) else Track(sc, page, gpu)
  {
    assert (page + [x])[..|page|] == page;
  }

  lemma {:induction false} NotIndexed(sc: Scrape, page: seq<Series>, gpu: int)
    requires gpu !in Indexed(page)
    ensures Track(sc, page, gpu) == NEW
  {
    if page != [] {
      assert page == page[..|page| - 1] + [page[|page| - 1]];
      NotIndexed(sc, page[..|page| - 1], gpu);
    }
  }

  method Accumulate(sc: Scrape, page: seq<Series>) returns (gpus: Option<map<int, DcgmGPU>>)
    ensures gpus == None <==> exists x :: x in page && Index(x) == None
    ensures gpus.Some? ==> Accumulated(sc, page, gpus.value)
  {
    var found: map<int, DcgmGPU> := map[];
    for i := 0 to |page|
      invariant forall g :: g in found.Values ==> fresh(g)
      invariant forall x :: x in page[..i] ==> Index(x).Some?
      invariant Accumulated(sc, page[..i], found)
    {
      assert page[..i + 1] == page[..i] + [page[i]] && page[..i + 1][..i] == page[..i];
      if Index(page[i]) == None {
        return None;
      }
      found := AccumulateOne(sc, page[i], found, page[..i]);
    }
    assert page[..|page|] == page;
    return Some(found);
  }

  method AccumulateOne(sc: Scrape, x: Series, gpus: map<int, DcgmGPU>, ghost page: seq<Series>) returns (grown: map<int, DcgmGPU>)
    requires Index(x).Some? && Accumulated(sc, page, gpus)
    modifies gpus.Values
    ensures forall g :: g in grown.Values ==> g in gpus.Values || fresh(g)
    ensures Accumulated(sc, page + [x], grown)
  {
    var i := Index(x).value;
    grown := gpus;
    if i !in grown {
      NotIndexed(sc, page, i);
      var g := new DcgmGPU(i);
      grown := grown[i := g];
    }
    assert Indexed(page + [x]) == Indexed(page) + {i};
    AddSeries(sc, x, i, grown, page);
  }

  method AddSeries(sc: Scrape, x: Series, i: int, gpus: map<int, DcgmGPU>, ghost page: seq<Series>)
    requires Index(x) == Some(i) && i in gpus && Held(sc, page, gpus.Keys, gpus)
    modifies gpus[i]
    ensures Held(sc, page + [x], gpus.Keys, gpus)
  {
    forall k ensures Track(sc, page + [x], k) == if k == i then AddTo(sc, Track(sc, page, k), x) else Track(sc, page, k) {
      TrackPush(sc, page, x, k);
    }
    gpus[i].Add(sc, x);
  }

  method SortedKeys(keys: set<int>) returns (sorted: seq<int>)
    ensures Evidence.Ascending(sorted) && forall i :: i in sorted <==> i in keys
  {
    var list: seq<int> := [];
    var rest := keys;
    while rest != {}
      invariant rest <= keys
      invariant forall i :: i in list <==> i in keys && i !in rest
      invariant forall a, b :: 0 <= a < b < |list| ==> list[a] != list[b]
    {
      if forall u :: u !in rest {
        assert false;
      }
      var i :| i in rest;
      assert i !in list;
      list := list + [i];
      rest := rest - {i};
    }
    sorted := Evidence.SortTimes(list);
  }

  // A page makes one sample for each GPU it names, in the order of the GPUs, and
  // none at all if any series cannot be attributed to one.
  method ParseDCGM(sc: Scrape, page: seq<Series>) returns (samples: Option<seq<Sample>>)
    ensures samples == None <==> exists x :: x in page && Index(x) == None
    ensures samples.Some? ==>
      && (forall i :: 0 <= i < |samples.value| ==> Fits(sc, samples.value[i].gpu, Track(sc, page, samples.value[i].gpu), samples.value[i]))
      && (forall i, k :: 0 <= i < k < |samples.value| ==> samples.value[i].gpu < samples.value[k].gpu)
      && (forall gpu :: gpu in Indexed(page) <==> exists s :: s in samples.value && s.gpu == gpu)
  {
    var gpus := Accumulate(sc, page);
    if gpus == None {
      return None;
    }
    var indices := SortedKeys(gpus.value.Keys);
    assert forall k :: 0 <= k < |indices| ==> indices[k] in indices;
    var out := SampleAll(sc, indices, gpus.value, page);
    forall gpu ensures gpu in Indexed(page) <==> exists s :: s in out && s.gpu == gpu {
      if gpu in Indexed(page) {
        assert gpu in indices;
        var i :| 0 <= i < |indices| && indices[i] == gpu;
        assert out[i] in out;
      }
    }
    return Some(out);
  }

  ghost predicate SampleOf(sc: Scrape, page: seq<Series>, gpu: int, s: Sample) {
    s.gpu == gpu && Fits(sc, gpu, Track(sc, page, gpu), s)
  }

  method SampleAll(sc: Scrape, indices: seq<int>, gpus: map<int, DcgmGPU>, ghost page: seq<Series>) returns (out: seq<Sample>)
    requires Accumulated(sc, page, gpus) && forall k :: 0 <= k < |indices| ==> indices[k] in gpus
    ensures |out| == |indices|
    ensures forall i :: 0 <= i < |out| ==> SampleOf(sc, page, indices[i], out[i])
  {
    out := [];
    for i := 0 to |indices|
      invariant |out| == i
      invariant forall k :: 0 <= k < i ==> SampleOf(sc, page, indices[k], out[k])
    {
      var s := gpus[indices[i]].Reduce(sc);
      assert SampleOf(sc, page, indices[i], s);
      out := out + [s];
    }
  }

  // ---- What a sample means ----

  // The sample is what this page makes of this GPU.
  ghost predicate MadeFrom(sc: Scrape, page: seq<Series>, gpu: int, s: Sample) {
    Fits(sc, gpu, Track(sc, page, gpu), s)
  }

  ghost predicate Readable(sc: Scrape, page: seq<Series>, gpu: int, m: Metric) {
    exists v :: Reads(sc, page, gpu, m, v)
  }

  // Some activity metric is present, and all that are can be read.
  ghost predicate ActivityReadable(sc: Scrape, page: seq<Series>, gpu: int) {
    && (exists m :: m in ACTIVITY && Present(page, gpu, m))
    && forall m :: m in ACTIVITY && Present(page, gpu, m) ==> Readable(sc, page, gpu, m)
  }

  ghost predicate LargestActivity(sc: Scrape, page: seq<Series>, gpu: int, util: real) {
    && (exists m, v :: m in ACTIVITY && Reads(sc, page, gpu, m, v) && util == Percent(m, v))
    && forall m, v :: m in ACTIVITY && Reads(sc, page, gpu, m, v) ==> Percent(m, v) <= util
  }

  lemma ReadsInRange(sc: Scrape, page: seq<Series>, gpu: int, m: Metric, v: real)
    requires Reads(sc, page, gpu, m, v)
    ensures InRange(m, v) && (m in ACTIVITY ==> 0.0 <= Percent(m, v) <= 100.0)
  {
    var x :| x in page && About(x, gpu, m);
    assert Sound(sc, x);
  }

  lemma OneActivity(sc: Scrape, page: seq<Series>, gpu: int, i: nat)
    requires i < 3
    ensures var got := Activity(Track(sc, page, gpu))[i];
      && (got.Known? <==> Readable(sc, page, gpu, ACTIVITY[i]))
      && (got == Absent <==> !Present(page, gpu, ACTIVITY[i]))
      && forall v :: got == Known(v) <==> Reads(sc, page, gpu, ACTIVITY[i], v)
  {
    GetMeans(sc, page, gpu, ACTIVITY[i]);
  }

  // Utilization is known exactly when activity can be read; it is then the
  // largest of the readings, every one of which all of its series agree on, and
  // a percentage.
  lemma UtilMeans(sc: Scrape, page: seq<Series>, gpu: int, s: Sample)
    requires MadeFrom(sc, page, gpu, s)
    ensures s.utilKnown <==> ActivityReadable(sc, page, gpu)
    ensures s.utilKnown ==> LargestActivity(sc, page, gpu, s.util) && 0.0 <= s.util <= 100.0
  {
    KnownWhenReadable(sc, page, gpu, s);
    if s.utilKnown {
      LargestIsRead(sc, page, gpu, s);
      var m, v :| m in ACTIVITY && Reads(sc, page, gpu, m, v) && s.util == Percent(m, v);
      ReadsInRange(sc, page, gpu, m, v);
    }
  }

  lemma KnownWhenReadable(sc: Scrape, page: seq<Series>, gpu: int, s: Sample)
    requires MadeFrom(sc, page, gpu, s)
    ensures s.utilKnown <==> ActivityReadable(sc, page, gpu)
  {
    var gets := Activity(Track(sc, page, gpu));
    assert s.utilKnown <==>
      (gets[0].Known? || gets[1].Known? || gets[2].Known?) && gets[0] != Unusable && gets[1] != Unusable && gets[2] != Unusable;
    OneActivity(sc, page, gpu, 0);
    OneActivity(sc, page, gpu, 1);
    OneActivity(sc, page, gpu, 2);
    ThreeMetrics(sc, page, gpu);
  }

  lemma ThreeMetrics(sc: Scrape, page: seq<Series>, gpu: int)
    ensures ActivityReadable(sc, page, gpu) <==>
      && (Present(page, gpu, ACTIVITY[0]) || Present(page, gpu, ACTIVITY[1]) || Present(page, gpu, ACTIVITY[2]))
      && (Present(page, gpu, ACTIVITY[0]) ==> Readable(sc, page, gpu, ACTIVITY[0]))
      && (Present(page, gpu, ACTIVITY[1]) ==> Readable(sc, page, gpu, ACTIVITY[1]))
      && (Present(page, gpu, ACTIVITY[2]) ==> Readable(sc, page, gpu, ACTIVITY[2]))
  {
    assert ACTIVITY[0] in ACTIVITY && ACTIVITY[1] in ACTIVITY && ACTIVITY[2] in ACTIVITY;
  }

  lemma LargestIsRead(sc: Scrape, page: seq<Series>, gpu: int, s: Sample)
    requires MadeFrom(sc, page, gpu, s) && s.utilKnown
    ensures LargestActivity(sc, page, gpu, s.util)
  {
    var gets := Activity(Track(sc, page, gpu));
    var k :| 0 <= k < 3 && gets[k].Known?;
    var i := if j :| 0 <= j < 3 && gets[j].Known? && s.util == Percent(ACTIVITY[j], gets[j].v) then j else k;
    forall m, v | m in ACTIVITY && Reads(sc, page, gpu, m, v) ensures Percent(m, v) <= s.util {
      var j :| 0 <= j < 3 && ACTIVITY[j] == m;
      OneActivity(sc, page, gpu, j);
    }
    OneActivity(sc, page, gpu, i);
    ReadsInRange(sc, page, gpu, ACTIVITY[i], gets[i].v);
    assert ACTIVITY[i] in ACTIVITY;
  }

  // More series about a GPU either take its sample out of judgement or make it
  // look at least as busy; nothing takes a page back to looking idler.
  lemma MoreSeriesLookBusier(sc: Scrape, page: seq<Series>, more: seq<Series>, gpu: int, s: Sample, s': Sample)
    requires MadeFrom(sc, page, gpu, s) && MadeFrom(sc, more, gpu, s') && forall x :: x in page ==> x in more
    ensures s.utilKnown && s'.Judgeable() ==> s.util <= s'.util
    ensures s.mig ==> s'.mig && !s'.Judgeable()
  {
    TrackMIG(sc, page, gpu);
    TrackMIG(sc, more, gpu);
    UtilMeans(sc, page, gpu, s);
    UtilMeans(sc, more, gpu, s');
    if s.utilKnown && s'.Judgeable() {
      var m, v :| m in ACTIVITY && Reads(sc, page, gpu, m, v) && s.util == Percent(m, v);
      var x :| x in page && About(x, gpu, m);
      assert Present(more, gpu, m) && Readable(sc, more, gpu, m);
      var w :| Reads(sc, more, gpu, m, w);
      assert w == v;
    }
  }

  // Series about other GPUs change nothing.
  lemma OthersDoNotMatter(sc: Scrape, page: seq<Series>, x: Series, gpu: int, s: Sample)
    requires Index(x) != Some(gpu)
    ensures MadeFrom(sc, page, gpu, s) <==> MadeFrom(sc, page + [x], gpu, s)
  {
    TrackPush(sc, page, x, gpu);
  }

  lemma SameGot(sc: Scrape, a: seq<Series>, b: seq<Series>, gpu: int, m: Metric)
    requires forall x :: x in a <==> x in b
    ensures Get(Track(sc, a, gpu), m) == Get(Track(sc, b, gpu), m)
  {
    GetMeans(sc, a, gpu, m);
    GetMeans(sc, b, gpu, m);
    assert Present(a, gpu, m) <==> Present(b, gpu, m);
    forall v ensures Reads(sc, a, gpu, m, v) <==> Reads(sc, b, gpu, m, v) {
    }
    var got := Get(Track(sc, a, gpu), m);
    if got.Known? {
      assert Reads(sc, a, gpu, m, got.v);
    }
    var got' := Get(Track(sc, b, gpu), m);
    if got'.Known? {
      assert Reads(sc, b, gpu, m, got'.v);
    }
  }

  lemma UtilIsUnique(gets: seq<Got>, u: real, known: bool, u': real, known': bool)
    requires |gets| <= |ACTIVITY| && UtilOf(gets, u, known) && UtilOf(gets, u', known')
    ensures u == u' && known == known'
  {
  }

  // The order of the series, and how often each is repeated, change nothing that
  // is judged.
  lemma OrderDoesNotMatter(sc: Scrape, a: seq<Series>, b: seq<Series>, gpu: int, s: Sample, s': Sample)
    requires MadeFrom(sc, a, gpu, s) && MadeFrom(sc, b, gpu, s') && forall x :: x in a <==> x in b
    ensures s.util == s'.util && s.utilKnown == s'.utilKnown
    ensures s.memKnown == s'.memKnown && (s.memKnown ==> s.memUsed == s'.memUsed && s.memTotal == s'.memTotal)
    ensures s.power == s'.power && s.powerKnown == s'.powerKnown
    ensures s.mig == s'.mig && s.timestamp == s'.timestamp && forall job :: job in s.jobs <==> job in s'.jobs
  {
    SameGot(sc, a, b, gpu, GPUUtil);
    SameGot(sc, a, b, gpu, GREngineActive);
    SameGot(sc, a, b, gpu, SMActive);
    SameGot(sc, a, b, gpu, FBUsed);
    SameGot(sc, a, b, gpu, FBFree);
    SameGot(sc, a, b, gpu, FBReserved);
    SameGot(sc, a, b, gpu, Power);
    UtilIsUnique(Activity(Track(sc, a, gpu)), s.util, s.utilKnown, s'.util, s'.utilKnown);
    SameLabels(sc, a, b, gpu);
  }

  lemma SameLabels(sc: Scrape, a: seq<Series>, b: seq<Series>, gpu: int)
    requires forall x :: x in a <==> x in b
    ensures var d, d' := Track(sc, a, gpu), Track(sc, b, gpu);
      d.mig == d'.mig && d.jobs == d'.jobs && d.newest == d'.newest
  {
    TrackMIG(sc, a, gpu);
    TrackMIG(sc, b, gpu);
    TrackNewest(sc, a, gpu);
    TrackNewest(sc, b, gpu);
    forall job ensures job in Track(sc, a, gpu).jobs <==> job in Track(sc, b, gpu).jobs {
      TrackJobs(sc, a, gpu, job);
      TrackJobs(sc, b, gpu, job);
    }
  }

  // Memory is known exactly when used and free can be read, reserved can be read
  // if it is present, and they do not add up to nothing.
  lemma MemoryMeans(sc: Scrape, page: seq<Series>, gpu: int, s: Sample)
    requires MadeFrom(sc, page, gpu, s)
    ensures s.memKnown <==>
      exists used, free, reserved ::
        && Reads(sc, page, gpu, FBUsed, used) && Reads(sc, page, gpu, FBFree, free)
        && ReadsOrAbsent(sc, page, gpu, FBReserved, reserved) && 0.0 < used + free + reserved
    ensures s.memKnown ==> s.memUsed <= s.memTotal
  {
    GetMeans(sc, page, gpu, FBUsed);
    GetMeans(sc, page, gpu, FBFree);
    GetMeans(sc, page, gpu, FBReserved);
    var d := Track(sc, page, gpu);
    var used, free, reserved := Get(d, FBUsed), Get(d, FBFree), Get(d, FBReserved);
    if s.memKnown {
      var r := if reserved.Known? then reserved.v else 0.0;
      assert ReadsOrAbsent(sc, page, gpu, FBReserved, r);
      ReadsInRange(sc, page, gpu, FBUsed, used.v);
      ReadsInRange(sc, page, gpu, FBFree, free.v);
      if reserved.Known? {
        ReadsInRange(sc, page, gpu, FBReserved, reserved.v);
      }
      assert used.v * MIB <= (used.v + free.v + r) * MIB;
    }
  }

  ghost predicate ReadsOrAbsent(sc: Scrape, page: seq<Series>, gpu: int, m: Metric, v: real) {
    if Present(page, gpu, m) then Reads(sc, page, gpu, m, v) else v == 0.0
  }

  // ---- The same in plain numbers ----

  // A series names the GPU whose number it carries in decimal.
  lemma NumberNamesGPU(x: Series, i: nat)
    requires x.gpu == Digits(i) && i <= MAX_INT64
    ensures Index(x) == Some(i)
  {
    Expansion.DigitsMean(i);
    assert x.gpu[0] in x.gpu;
  }

  // A label names a GPU exactly if it is a number that is not negative and fits 64
  // bits, with or without a sign; and then the GPU of that number.
  lemma IndexMeans(x: Series)
    ensures var signed := x.gpu != "" && (x.gpu[0] == '+' || x.gpu[0] == '-');
      var digits := if signed then x.gpu[1..] else x.gpu;
      && (Index(x).Some? <==>
           && digits != "" && AllDigits(digits) && DigitsValue(digits) <= 0x7fff_ffff_ffff_ffff
           && (x.gpu[0] == '-' ==> DigitsValue(digits) == 0))
      && (Index(x).Some? ==> Index(x).value == DigitsValue(digits))
  {
    assert x.gpu != "" ==> x.gpu[0] in x.gpu;
  }

  // A known utilization is a percentage and the largest of what was read: of the
  // utilization as it stands, and of the two ratios a hundredfold.
  lemma UtilIsLargest(sc: Scrape, page: seq<Series>, gpu: int, s: Sample)
    requires MadeFrom(sc, page, gpu, s) && s.utilKnown
    ensures forall v :: Reads(sc, page, gpu, GPUUtil, v) ==> v <= s.util
    ensures forall v :: Reads(sc, page, gpu, GREngineActive, v) || Reads(sc, page, gpu, SMActive, v) ==> 100.0 * v <= s.util
    ensures
      || Reads(sc, page, gpu, GPUUtil, s.util)
      || (exists v :: Reads(sc, page, gpu, GREngineActive, v) && s.util == 100.0 * v)
      || (exists v :: Reads(sc, page, gpu, SMActive, v) && s.util == 100.0 * v)
  {
    UtilMeans(sc, page, gpu, s);
    assert ACTIVITY[0] == GPUUtil && ACTIVITY[1] == GREngineActive && ACTIVITY[2] == SMActive;
    assert GPUUtil in ACTIVITY && GREngineActive in ACTIVITY && SMActive in ACTIVITY;
  }

  // The largest integer that is no more than so many mebibytes.
  predicate WholeBytes(bytes: nat, mib: real) {
    bytes as real <= mib * 1048576.0 < bytes as real + 1.0
  }

  lemma BytesAreWhole(mib: real)
    requires 0.0 <= mib
    ensures WholeBytes(Bytes(mib), mib)
  {
  }

  // Known memory is what was read as used, out of that and what was read as free
  // and, if present, reserved.
  lemma MemoryIs(sc: Scrape, page: seq<Series>, gpu: int, s: Sample, used: real, free: real, reserved: real)
    requires MadeFrom(sc, page, gpu, s) && s.memKnown
    requires Reads(sc, page, gpu, FBUsed, used) && Reads(sc, page, gpu, FBFree, free) && ReadsOrAbsent(sc, page, gpu, FBReserved, reserved)
    ensures WholeBytes(s.memUsed, used) && WholeBytes(s.memTotal, used + free + reserved)
  {
    GetMeans(sc, page, gpu, FBUsed);
    GetMeans(sc, page, gpu, FBFree);
    GetMeans(sc, page, gpu, FBReserved);
    ReadsInRange(sc, page, gpu, FBUsed, used);
    ReadsInRange(sc, page, gpu, FBFree, free);
    if Present(page, gpu, FBReserved) {
      ReadsInRange(sc, page, gpu, FBReserved, reserved);
    }
    assert Get(Track(sc, page, gpu), FBUsed) == Known(used) && Get(Track(sc, page, gpu), FBFree) == Known(free);
    BytesAreWhole(used);
    BytesAreWhole(used + free + reserved);
  }

  // Power is what all series of it say, or not known; process lists never are. The
  // labels are those on its series, and so is the stamp, the newest of them, a
  // series without one counting as stamped when the page was read.
  lemma LabelsAre(sc: Scrape, page: seq<Series>, gpu: int, s: Sample)
    requires MadeFrom(sc, page, gpu, s)
    ensures s.node == sc.node && s.gpu == gpu && !s.pidsKnown && s.pids == []
    ensures s.powerKnown <==> exists v :: Reads(sc, page, gpu, Power, v)
    ensures s.powerKnown ==> Reads(sc, page, gpu, Power, s.power)
    ensures s.mig <==> exists x :: x in page && Index(x) == Some(gpu) && (x.instance != "" || x.profile != "")
    ensures forall job :: job in s.jobs <==> job != "" && exists x :: x in page && Index(x) == Some(gpu) && x.job == job
    ensures forall x :: x in page && Index(x) == Some(gpu) ==> (if x.stamp == 0 then sc.at else x.stamp) <= s.timestamp
    ensures s.timestamp != UNSET ==>
      exists x :: x in page && Index(x) == Some(gpu) && s.timestamp == if x.stamp == 0 then sc.at else x.stamp
  {
    GetMeans(sc, page, gpu, Power);
    TrackMIG(sc, page, gpu);
    TrackNewest(sc, page, gpu);
    forall job ensures job in s.jobs <==> NamesJob(page, gpu, job) {
      TrackJobs(sc, page, gpu, job);
    }
  }

  // What one series may say of its metric: not missing, no further from the reading
  // of the page than the age allowed if it is stamped, and physically possible.
  predicate Sane(sc: Scrape, x: Series) {
    && x.value.Some?
    && (x.stamp == 0 || sc.maxAge <= 0 || sc.at - sc.maxAge <= x.stamp <= sc.at + sc.maxAge)
    && 0.0 <= x.value.value
    && (x.metric == GPUUtil ==> x.value.value <= 100.0)
    && (x.metric == GREngineActive || x.metric == SMActive ==> x.value.value <= 1.0)
    && (x.metric == Power ==> x.value.value < 100000.0)
    && (x.metric == FBUsed || x.metric == FBFree || x.metric == FBReserved ==> x.value.value < 16777216.0)
  }

  lemma SaneIsSound(sc: Scrape, x: Series)
    ensures Sane(sc, x) <==> Sound(sc, x)
  {
  }

  // One bad series of a metric makes the metric unreadable, whatever others say.
  lemma BadSeriesSpoils(sc: Scrape, page: seq<Series>, gpu: int, s: Sample, x: Series)
    requires MadeFrom(sc, page, gpu, s) && x in page && Index(x) == Some(gpu) && !Sane(sc, x)
    ensures x.metric in ACTIVITY ==> !s.utilKnown
    ensures x.metric == FBUsed || x.metric == FBFree || x.metric == FBReserved ==> !s.memKnown
    ensures x.metric == Power ==> !s.powerKnown
  {
    SaneIsSound(sc, x);
    assert About(x, gpu, x.metric) && Present(page, gpu, x.metric) && !Readable(sc, page, gpu, x.metric);
    UtilMeans(sc, page, gpu, s);
    MemoryMeans(sc, page, gpu, s);
    LabelsAre(sc, page, gpu, s);
  }

  // In particular one stamped further from the reading of the page than allowed.
  lemma StaleSeriesSpoils(sc: Scrape, page: seq<Series>, gpu: int, s: Sample, x: Series)
    requires MadeFrom(sc, page, gpu, s) && x in page && Index(x) == Some(gpu)
    requires x.stamp != 0 && 0 < sc.maxAge && (x.stamp + sc.maxAge < sc.at || sc.at + sc.maxAge < x.stamp)
    ensures x.metric in ACTIVITY ==> !s.utilKnown
    ensures x.metric == FBUsed || x.metric == FBFree || x.metric == FBReserved ==> !s.memKnown
    ensures x.metric == Power ==> !s.powerKnown
  {
    BadSeriesSpoils(sc, page, gpu, s, x);
  }

  // Sane series that all say the same are read as that.
  lemma SaneSeriesAreRead(sc: Scrape, page: seq<Series>, gpu: int, x: Series)
    requires x in page && Index(x) == Some(gpu) && Sane(sc, x)
    requires forall y :: y in page && Index(y) == Some(gpu) && y.metric == x.metric ==> Sane(sc, y) && y.value == x.value
    ensures Reads(sc, page, gpu, x.metric, x.value.value)
  {
    forall y | y in page && About(y, gpu, x.metric) ensures Sound(sc, y) && y.value == x.value {
      SaneIsSound(sc, y);
    }
    assert About(x, gpu, x.metric);
  }
}
