// Reading the output of squeue: one line a job, its fields separated by bars,
// the name last because it is the one field that may contain a bar.
module Squeue {
  import opened Wrappers
  import opened Telemetry
  import opened Hostlist
  import Grammar
  import Expansion
  import Text

  // How a start time and a count of GPUs are read from their text.
  datatype Reader = Reader(time: string -> Option<Time>, gpus: string -> int)

  const FIELDS: nat := 10

  // ---- One line ----

  // At most n parts; the last one keeps whatever separators are left.
  function SplitN(s: string, c: char, n: nat): (parts: seq<string>)
    requires 1 <= n
    ensures 1 <= |parts| <= n
    decreases n
  {
    var i := IndexOf(s, c);
    if n == 1 || i == |s| then [s] else [s[..i]] + SplitN(s[i + 1..], c, n - 1)
  }

  function TrimAll(fields: seq<string>): (trimmed: seq<string>)
    ensures |trimmed| == |fields|
  {
    if fields == [] then [] else [Text.Trim(fields[0])] + TrimAll(fields[1..])
  }

  predicate IsNumeral(s: string) {
    s != "" && AllDigits(s)
  }

  // Digits; then, each if its sign is there, the number of a task in an array and
  // the number of a part of a heterogeneous job.
  predicate IsJobID(s: string) {
    var plus := IndexOf(s, '+');
    var bar := IndexOf(s[..plus], '_');
    && IsNumeral(s[..bar])
    && (bar < plus ==> IsNumeral(s[bar + 1..plus]))
    && (plus < |s| ==> IsNumeral(s[plus + 1..]))
  }

  function JobFrom(rd: Reader, f: seq<string>): Option<Job>
    requires |f| == FIELDS
  {
    if !IsJobID(f[0]) || f[5] != "RUNNING" || rd.time(f[6]) == None || Expansion.NodeList(f[7]) == None then None
    else
      Some(Job(f[0], f[9], f[1], f[2], f[3], f[4], f[5], rd.time(f[6]).value, Expansion.NodeList(f[7]).value, rd.gpus(f[8])))
  }

  function ParseLine(rd: Reader, line: string): Option<Job> {
    var f := SplitN(line, '|', FIELDS);
    if |f| != FIELDS then None else JobFrom(rd, TrimAll(f))
  }

  method TrimFields(fields: seq<string>) returns (f: seq<string>)
    ensures f == TrimAll(fields)
  {
    f := fields;
    for i := 0 to |fields|
      invariant |f| == |fields|
      invariant forall k :: 0 <= k < i ==> f[k] == Text.Trim(fields[k])
      invariant forall k :: i <= k < |fields| ==> f[k] == fields[k]
    {
      f := f[i := Text.Trim(f[i])];
    }
    forall k | 0 <= k < |fields| ensures f[k] == TrimAll(fields)[k] {
      TrimAllAt(fields, k);
    }
  }

  method ParseSqueueLine(rd: Reader, line: string) returns (j: Option<Job>)
    ensures j == ParseLine(rd, line)
  {
    var fields := SplitN(line, '|', FIELDS);
    if |fields| != FIELDS {
      return None;
    }
    var f := TrimFields(fields);
    j := ReadJob(rd, f);
  }

  method ReadJob(rd: Reader, f: seq<string>) returns (j: Option<Job>)
    requires |f| == FIELDS
    ensures j == JobFrom(rd, f)
  {
    if !IsJobID(f[0]) {
      return None;
    }
    if f[5] != "RUNNING" {
      return None;
    }
    var start := rd.time(f[6]);
    if start == None {
      return None;
    }
    var nodes := Expansion.ExpandNodeList(f[7]);
    if nodes == None {
      return None;
    }
    return Some(Job(f[0], f[9], f[1], f[2], f[3], f[4], f[5], start.value, nodes.value, rd.gpus(f[8])));
  }

  lemma {:induction false} TrimAllAt(fields: seq<string>, i: nat)
    requires i < |fields|
    ensures TrimAll(fields)[i] == Text.Trim(fields[i])
  {
    if i > 0 {
      TrimAllAt(fields[1..], i - 1);
    }
  }

  // Exactly what an ID looks like.
  lemma JobIDMeans(s: string)
    ensures IsJobID(s) <==> exists id, task, component :: IsID(s, id, task, component)
  {
    if IsJobID(s) {
      var plus := IndexOf(s, '+');
      var bar := IndexOf(s[..plus], '_');
      assert s == s[..bar] + s[bar..plus] + s[plus..];
      assert bar < plus ==> s[bar..plus][1..] == s[bar + 1..plus];
      assert IsID(s, s[..bar], s[bar..plus], s[plus..]);
    }
    if id, task, component :| IsID(s, id, task, component) {
      IDIsAccepted(s, id, task, component);
    }
  }

  lemma Found(head: string, c: char, rest: string)
    requires c !in head && (rest == "" || rest[0] == c)
    ensures IndexOf(head + rest, c) == |head| && (head + rest)[..|head|] == head && (head + rest)[|head|..] == rest
  {
    if rest == "" {
      assert head + rest == head;
      Grammar.IndexOfFirst(head, c, "");
    } else {
      assert head + rest == head + [c] + rest[1..];
      Grammar.IndexOfFirst(head, c, rest[1..]);
    }
  }

  lemma IDIsAccepted(s: string, id: string, task: string, component: string)
    requires IsID(s, id, task, component)
    ensures IsJobID(s)
  {
    var head := id + task;
    NumeralsHaveNone(id);
    assert '+' !in head by {
      if task != "" {
        NumeralsHaveNone(task[1..]);
        assert task == "_" + task[1..];
      }
    }
    Found(head, '+', component);
    Found(id, '_', task);
    assert s == head + component;
    assert s[|head|..] == component && s[..|head|] == head;
    assert |head| < |s| ==> s[|head| + 1..] == component[1..];
    assert |id| < |head| ==> s[|id| + 1..|head|] == task[1..];
  }

  ghost predicate IsID(s: string, id: string, task: string, component: string) {
    && s == id + task + component
    && IsNumeral(id)
    && (task == "" || (task[0] == '_' && IsNumeral(task[1..])))
    && (component == "" || (component[0] == '+' && IsNumeral(component[1..])))
  }

  lemma NumeralsHaveNone(s: string)
    requires AllDigits(s)
    ensures '+' !in s && '_' !in s
  {
  }

  // ---- The whole output ----

  // What one line amounts to.
  datatype Line = Blank | Malformed(text: string) | Good(job: Job)

  function LineOf(rd: Reader, text: string): Line {
    if Text.Trim(text) == "" then Blank
    else
      match ParseLine(rd, text)
      case None => Malformed(text)
      case Some(j) => Good(j)
  }

  function Lines(rd: Reader, texts: seq<string>): (lines: seq<Line>)
    ensures |lines| == |texts|
  {
    if texts == [] then [] else Lines(rd, texts[..|texts| - 1]) + [LineOf(rd, texts[|texts| - 1])]
  }

  function Output(rd: Reader, out: string): seq<Line> {
    Lines(rd, Split(out, '\n'))
  }

  datatype Reject = BadLine(text: string) | Repeated(id: string, times: nat)

  function Jobs(lines: seq<Line>): seq<Job> {
    if lines == [] then []
    else
      var last := lines[|lines| - 1];
      Jobs(lines[..|lines| - 1]) + if last.Good? then [last.job] else []
  }

  function BadLines(lines: seq<Line>): seq<Reject> {
    if lines == [] then []
    else
      var last := lines[|lines| - 1];
      BadLines(lines[..|lines| - 1]) + if last.Malformed? then [BadLine(last.text)] else []
  }

  function Repetitions(jobs: seq<Job>, id: string): nat {
    if jobs == [] then 0 else Repetitions(jobs[..|jobs| - 1], id) + if jobs[|jobs| - 1].id == id then 1 else 0
  }

  // Of these jobs, the ones whose ID occurs once in all of them.
  function Single(jobs: seq<Job>, all: seq<Job>): seq<Job> {
    if jobs == [] then []
    else
      var last := jobs[|jobs| - 1];
      Single(jobs[..|jobs| - 1], all) + if Repetitions(all, last.id) > 1 then [] else [last]
  }

  function Repeats(jobs: seq<Job>, all: seq<Job>): seq<Reject> {
    if jobs == [] then []
    else
      var last := jobs[|jobs| - 1];
      Repeats(jobs[..|jobs| - 1], all) + if Repetitions(all, last.id) > 1 then [Repeated(last.id, Repetitions(all, last.id))] else []
  }

  function Kept(lines: seq<Line>): seq<Job> {
    Single(Jobs(lines), Jobs(lines))
  }

  function Rejects(lines: seq<Line>): seq<Reject> {
    BadLines(lines) + Repeats(Jobs(lines), Jobs(lines))
  }

  method ReadLine(rd: Reader, text: string) returns (line: Line)
    ensures line == LineOf(rd, text)
  {
    if Text.Trim(text) == "" {
      return Blank;
    }
    var j := ParseSqueueLine(rd, text);
    line := if j == None then Malformed(text) else Good(j.value);
  }

  method AddLine(line: Line, jobs: seq<Job>, count: map<string, nat>, rejects: seq<Reject>, ghost lines: seq<Line>)
    returns (jobs': seq<Job>, count': map<string, nat>, rejects': seq<Reject>)
    requires jobs == Jobs(lines) && rejects == BadLines(lines) && Counted(jobs, count)
    ensures jobs' == Jobs(lines + [line]) && rejects' == BadLines(lines + [line]) && Counted(jobs', count')
  {
    assert (lines + [line])[..|lines|] == lines;
    jobs', count', rejects' := jobs, count, rejects;
    match line {
      case Blank =>
      case Malformed(text) =>
        rejects' := rejects + [BadLine(text)];
      case Good(j) =>
        CountedPush(jobs, count, j);
        count' := count[j.id := (if j.id in count then count[j.id] else 0) + 1];
        jobs' := jobs + [j];
    }
  }

  method ReadLines(rd: Reader, texts: seq<string>) returns (jobs: seq<Job>, count: map<string, nat>, rejects: seq<Reject>)
    ensures jobs == Jobs(Lines(rd, texts)) && rejects == BadLines(Lines(rd, texts))
    ensures Counted(jobs, count)
  {
    jobs, count, rejects := [], map[], [];
    ghost var lines: seq<Line> := [];
    for i := 0 to |texts|
      invariant lines == Lines(rd, texts[..i])
      invariant jobs == Jobs(lines) && rejects == BadLines(lines)
      invariant Counted(jobs, count)
    {
      var line := ReadLine(rd, texts[i]);
      LinesPush(rd, texts, i);
      jobs, count, rejects := AddLine(line, jobs, count, rejects, lines);
      lines := lines + [line];
    }
    Grammar.Whole(texts);
  }

  lemma LinesPush(rd: Reader, texts: seq<string>, i: nat)
    requires i < |texts|
    ensures Lines(rd, texts[..i + 1]) == Lines(rd, texts[..i]) + [LineOf(rd, texts[i])]
  {
    assert texts[..i + 1][..i] == texts[..i];
  }

  ghost predicate Counted(jobs: seq<Job>, count: map<string, nat>) {
    && (forall j :: j in jobs ==> j.id in count)
    && forall id :: (if id in count then count[id] else 0) == Repetitions(jobs, id)
  }

  lemma CountedPush(jobs: seq<Job>, count: map<string, nat>, j: Job)
    requires Counted(jobs, count)
    ensures Counted(jobs + [j], count[j.id := (if j.id in count then count[j.id] else 0) + 1])
  {
    RepetitionsPush(jobs, j);
  }

  lemma RepetitionsPush(jobs: seq<Job>, j: Job)
    ensures forall id :: Repetitions(jobs + [j], id) == Repetitions(jobs, id) + if j.id == id then 1 else 0
  {
    assert (jobs + [j])[..|jobs|] == jobs;
  }

  // The kept jobs are written over the front of the list that is being read.
  method KeepSingles(jobs: seq<Job>, count: map<string, nat>) returns (kept: seq<Job>, rejects: seq<Reject>)
    requires Counted(jobs, count)
    ensures kept == Single(jobs, jobs) && rejects == Repeats(jobs, jobs)
  {
    var buffer, k := jobs, 0;
    rejects := [];
    for i := 0 to |jobs|
      invariant 0 <= k <= i && |buffer| == |jobs|
      invariant buffer[..k] == Single(jobs[..i], jobs) && rejects == Repeats(jobs[..i], jobs)
      invariant buffer[i..] == jobs[i..]
    {
      assert jobs[..i + 1][..i] == jobs[..i];
      var j := buffer[i];
      assert j == buffer[i..][0] == jobs[i];
      assert buffer[i + 1..] == buffer[i..][1..] == jobs[i..][1..] == jobs[i + 1..];
      if 1 < count[j.id] {
        rejects := rejects + [Repeated(j.id, count[j.id])];
        continue;
      }
      assert buffer[k := j][i + 1..] == buffer[i + 1..];
      buffer := buffer[k := j];
      k := k + 1;
    }
    assert jobs[..|jobs|] == jobs;
    kept := buffer[..k];
  }

  method ParseSqueue(rd: Reader, out: string) returns (kept: seq<Job>, rejects: seq<Reject>)
    ensures kept == Kept(Output(rd, out)) && rejects == Rejects(Output(rd, out))
  {
    var jobs, count, malformed := ReadLines(rd, Split(out, '\n'));
    var repeated;
    kept, repeated := KeepSingles(jobs, count);
    rejects := malformed + repeated;
  }

  // ---- What is kept ----

  lemma {:induction false} TimesWhen(jobs: seq<Job>, id: string)
    ensures 0 < Repetitions(jobs, id) <==> exists j :: j in jobs && j.id == id
  {
    if jobs != [] {
      TimesWhen(jobs[..|jobs| - 1], id);
      Grammar.LastApart(jobs);
    }
  }

  lemma {:induction false} TwoTimes(jobs: seq<Job>, a: nat, b: nat)
    requires a < b < |jobs| && jobs[a].id == jobs[b].id
    ensures 2 <= Repetitions(jobs, jobs[a].id)
  {
    var rest := jobs[..|jobs| - 1];
    if b < |rest| {
      TwoTimes(rest, a, b);
    } else {
      TimesWhen(rest, jobs[a].id);
      assert rest[a] in rest;
    }
  }

  lemma {:induction false} TimesOne(jobs: seq<Job>, a: nat)
    requires a < |jobs| && forall b :: 0 <= b < |jobs| && b != a ==> jobs[b].id != jobs[a].id
    ensures Repetitions(jobs, jobs[a].id) == 1
  {
    var rest := jobs[..|jobs| - 1];
    if a < |rest| {
      TimesOne(rest, a);
    } else {
      TimesWhen(rest, jobs[a].id);
    }
  }

  lemma {:induction false} SingleMembers(jobs: seq<Job>, all: seq<Job>)
    ensures forall j :: j in Single(jobs, all) <==> j in jobs && Repetitions(all, j.id) <= 1
  {
    if jobs != [] {
      SingleMembers(jobs[..|jobs| - 1], all);
      Grammar.LastApart(jobs);
    }
  }

  // Where the job of a line comes among all of them.
  function Position(lines: seq<Line>, i: nat): nat
    requires i <= |lines|
  {
    |Jobs(lines[..i])|
  }

  lemma {:induction false} JobOfLine(lines: seq<Line>, i: nat)
    requires i < |lines| && lines[i].Good?
    ensures Position(lines, i) < |Jobs(lines)| && Jobs(lines)[Position(lines, i)] == lines[i].job
  {
    if i < |lines| - 1 {
      JobOfLine(lines[..|lines| - 1], i);
      assert lines[..|lines| - 1][..i] == lines[..i];
    }
  }

  lemma {:induction false} LineOfJob(lines: seq<Line>, a: nat) returns (i: nat)
    requires a < |Jobs(lines)|
    ensures i < |lines| && lines[i] == Good(Jobs(lines)[a]) && a == Position(lines, i)
  {
    i := |lines| - 1;
    if a < |Jobs(lines[..i])| {
      i := LineOfJob(lines[..i], a);
      assert lines[..|lines| - 1][..i] == lines[..i];
    }
  }

  lemma {:induction false} Later(lines: seq<Line>, i: nat, k: nat)
    requires i < k <= |lines| && lines[i].Good?
    ensures Position(lines, i) < Position(lines, k)
    decreases k
  {
    assert lines[..k][..k - 1] == lines[..k - 1];
    if i < k - 1 {
      Later(lines, i, k - 1);
    }
  }

  // No other line gives a job of the same ID.
  ghost predicate Alone(lines: seq<Line>, i: nat, id: string) {
    forall k :: 0 <= k < |lines| && k != i && lines[k].Good? ==> lines[k].job.id != id
  }

  // A job is kept if and only if some line gives it and no other line gives a
  // job of the same ID.
  lemma KeptExactly(lines: seq<Line>, j: Job)
    ensures j in Kept(lines) <==> exists i :: 0 <= i < |lines| && lines[i] == Good(j) && Alone(lines, i, j.id)
  {
    SingleMembers(Jobs(lines), Jobs(lines));
    if j in Kept(lines) {
      var a :| 0 <= a < |Jobs(lines)| && Jobs(lines)[a] == j;
      var i := LineOfJob(lines, a);
      KeptIsAlone(lines, i);
    }
    if i :| 0 <= i < |lines| && lines[i] == Good(j) && Alone(lines, i, j.id) {
      AloneIsKept(lines, i);
    }
  }

  lemma KeptIsAlone(lines: seq<Line>, i: nat)
    requires i < |lines| && lines[i].Good? && Repetitions(Jobs(lines), lines[i].job.id) <= 1
    ensures Alone(lines, i, lines[i].job.id)
  {
    JobOfLine(lines, i);
    forall k | 0 <= k < |lines| && k != i && lines[k].Good? ensures lines[k].job.id != lines[i].job.id {
      JobOfLine(lines, k);
      if i < k {
        Later(lines, i, k);
      } else {
        Later(lines, k, i);
      }
      var a, b := Position(lines, i), Position(lines, k);
      if lines[k].job.id == lines[i].job.id {
        TwoTimes(Jobs(lines), if a < b then a else b, if a < b then b else a);
      }
    }
  }

  lemma AloneIsKept(lines: seq<Line>, i: nat)
    requires i < |lines| && lines[i].Good? && Alone(lines, i, lines[i].job.id)
    ensures lines[i].job in Jobs(lines) && Repetitions(Jobs(lines), lines[i].job.id) == 1
  {
    var jobs, a := Jobs(lines), Position(lines, i);
    JobOfLine(lines, i);
    forall b | 0 <= b < |jobs| && b != a ensures jobs[b].id != jobs[a].id {
      var k := LineOfJob(lines, b);
    }
    TimesOne(jobs, a);
  }

  // No two jobs that are kept share an ID.
  lemma KeptIsDistinct(lines: seq<Line>)
    ensures Distinct(Kept(lines))
  {
    Grammar.Whole(Jobs(lines));
    SinglesAreDistinct(Jobs(lines), Jobs(lines), |Jobs(lines)|);
  }

  lemma {:induction false} SinglesAreDistinct(jobs: seq<Job>, all: seq<Job>, n: nat)
    requires n <= |all| && jobs == all[..n]
    ensures Distinct(Single(jobs, all))
  {
    if jobs != [] {
      var rest, last := jobs[..|jobs| - 1], jobs[|jobs| - 1];
      assert rest == all[..n - 1];
      SinglesAreDistinct(rest, all, n - 1);
      SingleMembers(rest, all);
      if Repetitions(all, last.id) <= 1 {
        forall j | j in Single(rest, all) ensures j.id != last.id {
          var a :| 0 <= a < |rest| && rest[a] == j;
          if j.id == last.id {
            TwoTimes(all, a, n - 1);
          }
        }
      }
    }
  }

  function NonBlank(lines: seq<Line>): nat {
    if lines == [] then 0 else NonBlank(lines[..|lines| - 1]) + if lines[|lines| - 1].Blank? then 0 else 1
  }

  // Every line that is not blank is either kept as a job or rejected, once.
  lemma EveryLineIsAccountedFor(lines: seq<Line>)
    ensures NonBlank(lines) == |Kept(lines)| + |Rejects(lines)|
  {
    LinesSplit(lines);
    JobsSplit(Jobs(lines), Jobs(lines));
  }

  lemma {:induction false} LinesSplit(lines: seq<Line>)
    ensures NonBlank(lines) == |Jobs(lines)| + |BadLines(lines)|
  {
    if lines != [] {
      LinesSplit(lines[..|lines| - 1]);
    }
  }

  lemma {:induction false} JobsSplit(jobs: seq<Job>, all: seq<Job>)
    ensures |jobs| == |Single(jobs, all)| + |Repeats(jobs, all)|
  {
    if jobs != [] {
      JobsSplit(jobs[..|jobs| - 1], all);
    }
  }

  // ---- Round trip ----

  function Barred(first: string, rest: string): string {
    first + ['|'] + rest
  }

  function JoinBars(fields: seq<string>): string
    requires fields != []
  {
    if |fields| == 1 then fields[0] else Barred(fields[0], JoinBars(fields[1..]))
  }

  lemma BarFound(first: string, rest: string, n: nat)
    requires '|' !in first && 1 < n
    ensures SplitN(Barred(first, rest), '|', n) == [first] + SplitN(rest, '|', n - 1)
  {
    Grammar.IndexOfFirst(first, '|', rest);
    assert Barred(first, rest)[..|first|] == first && Barred(first, rest)[|first| + 1..] == rest;
  }

  // Fields without a bar, and a last one with any bars at all, are split again
  // as they were joined.
  lemma {:induction false} SplitNJoined(fields: seq<string>)
    requires fields != [] && forall i :: 0 <= i < |fields| - 1 ==> '|' !in fields[i]
    ensures SplitN(JoinBars(fields), '|', |fields|) == fields
  {
    if |fields| > 1 {
      BarFound(fields[0], JoinBars(fields[1..]), |fields|);
      SplitNJoined(fields[1..]);
      assert fields == [fields[0]] + fields[1..];
    }
  }

  lemma {:induction false} TrimmedStay(fields: seq<string>)
    requires forall f :: f in fields ==> Text.Trimmed(f)
    ensures TrimAll(fields) == fields
  {
    if fields != [] {
      Text.TrimIsTrimmed(fields[0]);
      TrimmedStay(fields[1..]);
      assert fields == [fields[0]] + fields[1..];
    }
  }

  // Nine trimmed fields without a bar and any trimmed name, bars and all, are
  // read back as they were printed: no name can shift a field.
  lemma LineRoundTrip(rd: Reader, fields: seq<string>)
    requires |fields| == FIELDS && (forall f :: f in fields ==> Text.Trimmed(f)) && forall i :: 0 <= i < FIELDS - 1 ==> '|' !in fields[i]
    ensures ParseLine(rd, JoinBars(fields)) == JobFrom(rd, fields)
  {
    SplitNJoined(fields);
    TrimmedStay(fields);
  }

  function Printed(j: Job, start: string, nodes: string, tres: string): seq<string> {
    [j.id, j.user, j.account, j.partition, j.qos, j.state, start, nodes, tres, j.name]
  }

  // A running job printed in the requested format is read back as it was.
  lemma JobRoundTrip(rd: Reader, j: Job, start: string, nodes: string, tres: string)
    requires IsJobID(j.id) && j.state == "RUNNING"
    requires rd.time(start) == Some(j.startTime) && Expansion.NodeList(nodes) == Some(j.nodes) && rd.gpus(tres) == j.gpuCount
    requires forall f :: f in Printed(j, start, nodes, tres) ==> Text.Trimmed(f)
    requires forall i :: 0 <= i < FIELDS - 1 ==> '|' !in Printed(j, start, nodes, tres)[i]
    ensures ParseLine(rd, JoinBars(Printed(j, start, nodes, tres))) == Some(j)
  {
    LineRoundTrip(rd, Printed(j, start, nodes, tres));
  }

  // ---- What was read was written there ----

  lemma {:induction false} SplitNSound(s: string, n: nat)
    requires 1 <= n
    ensures var parts := SplitN(s, '|', n);
      JoinBars(parts) == s && forall i :: 0 <= i < |parts| - 1 ==> '|' !in parts[i]
    decreases n
  {
    var i := IndexOf(s, '|');
    if n > 1 && i < |s| {
      SplitNSound(s[i + 1..], n - 1);
      var rest := SplitN(s[i + 1..], '|', n - 1);
      assert ([s[..i]] + rest)[1..] == rest;
      assert s == s[..i] + ['|'] + s[i + 1..];
      assert '|' !in s[..i];
    }
  }

  // The job is what ten fields of the line say, the last one taking all that is left.
  ghost predicate SaidBy(rd: Reader, fields: seq<string>, j: Job)
    requires |fields| == FIELDS
  {
    && j.id == Text.Trim(fields[0]) && j.user == Text.Trim(fields[1]) && j.account == Text.Trim(fields[2])
    && j.partition == Text.Trim(fields[3]) && j.qos == Text.Trim(fields[4]) && j.state == Text.Trim(fields[5])
    && rd.time(Text.Trim(fields[6])) == Some(j.startTime)
    && Expansion.NodeList(Text.Trim(fields[7])) == Some(j.nodes)
    && rd.gpus(Text.Trim(fields[8])) == j.gpuCount
    && j.name == Text.Trim(fields[9])
  }

  // A line gives a job if and only if it has ten fields that say so, its ID is one,
  // and it is running.
  lemma LineSays(rd: Reader, line: string, j: Job)
    ensures ParseLine(rd, line) == Some(j) <==>
      && j.state == "RUNNING" && IsJobID(j.id)
      && exists fields :: |fields| == FIELDS && JoinBars(fields) == line
           && (forall i :: 0 <= i < FIELDS - 1 ==> '|' !in fields[i]) && SaidBy(rd, fields, j)
  {
    var f := SplitN(line, '|', FIELDS);
    SplitNSound(line, FIELDS);
    if |f| == FIELDS {
      FieldsSay(rd, f, j);
    }
    forall fields | |fields| == FIELDS && JoinBars(fields) == line && (forall i :: 0 <= i < FIELDS - 1 ==> '|' !in fields[i])
      ensures fields == f
    {
      SplitNJoined(fields);
    }
  }

  lemma FieldsSay(rd: Reader, f: seq<string>, j: Job)
    requires |f| == FIELDS
    ensures JobFrom(rd, TrimAll(f)) == Some(j) <==> j.state == "RUNNING" && IsJobID(j.id) && SaidBy(rd, f, j)
  {
    TrimmedFields(f);
  }

  lemma TrimmedFields(f: seq<string>)
    requires |f| == FIELDS
    ensures forall i :: 0 <= i < FIELDS ==> TrimAll(f)[i] == Text.Trim(f[i])
  {
    forall i | 0 <= i < FIELDS ensures TrimAll(f)[i] == Text.Trim(f[i]) {
      TrimAllAt(f, i);
    }
  }

  lemma {:induction false} LineAt(rd: Reader, texts: seq<string>, i: nat)
    requires i < |texts|
    ensures Lines(rd, texts)[i] == LineOf(rd, texts[i])
  {
    if i < |texts| - 1 {
      LineAt(rd, texts[..|texts| - 1], i);
    }
  }

  // Every job that is kept is running, has a valid ID, and is what a line says.
  lemma KeptIsRunning(rd: Reader, texts: seq<string>, j: Job)
    requires j in Kept(Lines(rd, texts))
    ensures j.state == "RUNNING" && IsJobID(j.id)
    ensures exists i :: 0 <= i < |texts| && ParseLine(rd, texts[i]) == Some(j)
  {
    KeptExactly(Lines(rd, texts), j);
    var i :| 0 <= i < |texts| && Lines(rd, texts)[i] == Good(j);
    LineAt(rd, texts, i);
    LineSays(rd, texts[i], j);
  }

  function JoinLines(texts: seq<string>): string
    requires texts != []
  {
    if |texts| == 1 then texts[0] else texts[0] + ['\n'] + JoinLines(texts[1..])
  }

  // Texts without a line break, one a line, are read line by line.
  lemma {:induction false} LinesAreSplit(texts: seq<string>)
    requires texts != [] && forall i :: 0 <= i < |texts| ==> '\n' !in texts[i]
    ensures Split(JoinLines(texts), '\n') == texts
  {
    if |texts| == 1 {
      Grammar.IndexOfFirst(texts[0], '\n', "");
    } else {
      var rest := JoinLines(texts[1..]);
      Grammar.IndexOfFirst(texts[0], '\n', rest);
      var s := texts[0] + ['\n'] + rest;
      assert s[..|texts[0]|] == texts[0] && s[|texts[0]| + 1..] == rest;
      LinesAreSplit(texts[1..]);
      assert texts == [texts[0]] + texts[1..];
    }
  }

  lemma OutputIsLines(rd: Reader, texts: seq<string>)
    requires texts != [] && forall i :: 0 <= i < |texts| ==> '\n' !in texts[i]
    ensures Output(rd, JoinLines(texts)) == Lines(rd, texts)
  {
    LinesAreSplit(texts);
  }
}
