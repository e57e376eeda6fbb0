// The configuration rules that bear on time, stages and signatures.
module Config {
  import opened Wrappers
  import opened Telemetry
  import opened Policy
  import opened Engines
  import opened Runs
  import Ladder
  import Stages
  import Text

  datatype ConfigStage = ConfigStage(after: Duration, verdict: string)

  datatype Settings = Settings(
    enforce: bool,
    interval: Duration,
    thresholds: Thresholds,
    stages: seq<ConfigStage>,
    allowCancel: seq<string>)

  function ParseVerdict(s: string): Option<Verdict> {
    var word := Text.ToLower(Text.Trim(s));
    if word == "" || word == "healthy" then Some(Healthy)
    else if word == "watching" then Some(Watching)
    else if word == "alert" then Some(Alert)
    else if word == "drain" then Some(Drain)
    else if word == "cancel" then Some(Cancel)
    else None
  }

  const MINUTE: Duration := 60_000_000_000

  const DEFAULT_STAGES: seq<Stage> := [Stage(0, Alert), Stage(60 * MINUTE, Drain)]

  const DEFAULT_THRESHOLDS := Thresholds(15.0, 0.05, 60.0, 20 * MINUTE, 15 * MINUTE, 8, 3 * MINUTE)

  const DEFAULT_SETTINGS := Settings(false, 2 * MINUTE, DEFAULT_THRESHOLDS, [], ["idle"])

  // The stages as written, if every verdict is a word that is known.
  function Parsed(stages: seq<ConfigStage>): Option<seq<Stage>> {
    if stages == [] then Some([])
    else
      var last := stages[|stages| - 1];
      match (Parsed(stages[..|stages| - 1]), ParseVerdict(last.verdict))
      case (Some(rest), Some(v)) => Some(rest + [Stage(last.after, v)])
      case _ => None
  }

  function Effective(s: Settings): Option<seq<Stage>> {
    if s.stages == [] then Some(DEFAULT_STAGES) else Parsed(s.stages)
  }

  method PolicyStages(s: Settings) returns (r: Option<seq<Stage>>)
    ensures r == Effective(s)
  {
    if s.stages == [] {
      return Some(DEFAULT_STAGES);
    }
    var out: seq<Stage> := [];
    for i := 0 to |s.stages|
      invariant Parsed(s.stages[..i]) == Some(out)
    {
      assert s.stages[..i + 1][..i] == s.stages[..i];
      match ParseVerdict(s.stages[i].verdict) {
        case None =>
          ParsedPrefix(s.stages, i + 1);
          return None;
        case Some(v) =>
          out := out + [Stage(s.stages[i].after, v)];
      }
    }
    assert s.stages[..|s.stages|] == s.stages;
    return Some(out);
  }

  lemma {:induction false} ParsedPrefix(stages: seq<ConfigStage>, n: nat)
    requires n <= |stages| && Parsed(stages[..n]) == None
    ensures Parsed(stages) == None
    decreases |stages| - n
  {
    if n == |stages| {
      assert stages[..n] == stages;
    } else {
      assert stages[..n + 1][..n] == stages[..n];
      ParsedPrefix(stages, n + 1);
    }
  }

  lemma {:induction false} ParsedMembers(stages: seq<ConfigStage>)
    ensures Parsed(stages).Some? <==> forall s :: s in stages ==> ParseVerdict(s.verdict).Some?
    ensures Parsed(stages).Some? ==>
      && |Parsed(stages).value| == |stages|
      && forall i :: 0 <= i < |stages| ==>
           Parsed(stages).value[i].after == stages[i].after && ParseVerdict(stages[i].verdict) == Some(Parsed(stages).value[i].verdict)
  {
    if stages != [] {
      ParsedMembers(stages[..|stages| - 1]);
      assert stages == stages[..|stages| - 1] + [stages[|stages| - 1]];
    }
  }

  function SignatureOf(s: string): Signature {
    if s == "idle" then Idle else if s == "hung" then Hung else if s == "starved" then Starved else Unknown
  }

  // A 64-bit signed integer, as arithmetic on it wraps around.
  function Wrapped(x: int): int {
    (x + 0x8000_0000_0000_0000) % 0x1_0000_0000_0000_0000 - 0x8000_0000_0000_0000
  }

  lemma WrappedIsExact(x: int)
    requires -0x8000_0000_0000_0000 <= x < 0x8000_0000_0000_0000
    ensures Wrapped(x) == x
  {
  }

  predicate StageAcceptable(x: ConfigStage) {
    ParseVerdict(x.verdict).Some? && !ParseVerdict(x.verdict).value.Below(Alert) && 0 <= x.after
  }

  // The rules, each of which prevents a daemon that runs but cannot do what was
  // plausibly meant. The product of the two settings is a 64-bit one.
  predicate Acceptable(s: Settings) {
    var t := s.thresholds;
    && 0 < s.interval
    && 0.0 < t.utilPct <= 100.0
    && 0.0 <= t.memHeldFraction <= 1.0
    && 0.0 <= t.idlePowerWatts
    && 0 < t.window && 0 <= t.warmup && 1 <= t.minSamples
    && s.interval < t.maxSampleGap < t.window
    && Wrapped(t.minSamples * s.interval) <= t.window
    && (forall x :: x in s.stages ==> StageAcceptable(x))
    && Effective(s).Some?
    && (forall x :: x in Effective(s).value ==> Alert.Below(x.verdict) ==> t.window <= x.after)
    && (forall x :: x in s.allowCancel ==> x == "idle" || x == "hung")
  }

  method Validate(s: Settings) returns (ok: bool)
    ensures ok == Acceptable(s)
  {
    var t := s.thresholds;
    if s.interval <= 0 || t.utilPct <= 0.0 || 100.0 < t.utilPct || t.memHeldFraction < 0.0 || 1.0 < t.memHeldFraction
       || t.idlePowerWatts < 0.0 || t.window <= 0 || t.warmup < 0 || t.minSamples < 1 {
      return false;
    }
    if !(s.interval < t.maxSampleGap && t.maxSampleGap < t.window) {
      return false;
    }
    if t.window < Wrapped(t.minSamples * s.interval) {
      return false;
    }
    for i := 0 to |s.stages|
      invariant forall k :: 0 <= k < i ==> StageAcceptable(s.stages[k])
    {
      assert s.stages[i] in s.stages;
      var v := ParseVerdict(s.stages[i].verdict);
      if v == None || v.value.Below(Alert) || s.stages[i].after < 0 {
        return false;
      }
    }
    var stages := PolicyStages(s);
    if stages == None {
      return false;
    }
    for i := 0 to |stages.value|
      invariant forall k :: 0 <= k < i ==> Alert.Below(stages.value[k].verdict) ==> t.window <= stages.value[k].after
    {
      assert stages.value[i] in stages.value;
      if Alert.Below(stages.value[i].verdict) && stages.value[i].after < t.window {
        return false;
      }
    }
    for i := 0 to |s.allowCancel|
      invariant forall k :: 0 <= k < i ==> s.allowCancel[k] == "idle" || s.allowCancel[k] == "hung"
    {
      assert s.allowCancel[i] in s.allowCancel;
      if s.allowCancel[i] != "idle" && s.allowCancel[i] != "hung" {
        return false;
      }
    }
    return true;
  }

  function Signatures(names: seq<string>): seq<Signature> {
    seq(|names|, i requires 0 <= i < |names| => SignatureOf(names[i]))
  }

  lemma SignatureSet(names: seq<string>)
    ensures (set x | x in Signatures(names)) == set x | x in names :: SignatureOf(x)
  {
    forall x | x in names ensures SignatureOf(x) in Signatures(names) {
      var i :| 0 <= i < |names| && names[i] == x;
      assert Signatures(names)[i] == SignatureOf(x);
    }
  }

  method CancelSignatures(s: Settings) returns (sigs: seq<Signature>)
    ensures sigs == Signatures(s.allowCancel)
  {
    sigs := [];
    for i := 0 to |s.allowCancel|
      invariant |sigs| == i && forall k :: 0 <= k < i ==> sigs[k] == SignatureOf(s.allowCancel[k])
    {
      sigs := sigs + [SignatureOf(s.allowCancel[i])];
    }
  }

  function RulesOf(s: Settings, exempt: Job -> bool): Rules
    requires Effective(s).Some?
  {
    Rules(s.thresholds, Stages.Sorted(Effective(s).value), exempt)
  }

  // What a list of names makes cancellable: each kind exactly if it is named.
  lemma CancelsWhatIsListed(names: seq<string>)
    requires forall x :: x in names ==> x == "idle" || x == "hung"
    ensures var allowed := AllowCancel(INITIAL, Signatures(names)).cancellable;
      && (Idle in allowed <==> "idle" in names) && (Hung in allowed <==> "hung" in names)
      && Starved !in allowed && Unknown !in allowed
  {
    SignatureSet(names);
    forall g | g in Signatures(names) ensures g == Idle || g == Hung {
      assert g in (set x | x in names :: SignatureOf(x));
    }
  }

  // Whatever the validator accepts makes an engine, and the engine may cancel
  // exactly the signatures listed; none at all when the list is empty.
  method NewEngine(s: Settings, exempt: Job -> bool) returns (built: Built)
    ensures Acceptable(s) ==> built.Built?
    ensures built.Built? ==>
      && Effective(s).Some? && s.thresholds.Valid()
      && fresh(built.engine) && built.engine.Valid() && built.engine.rules == RulesOf(s, exempt)
      && built.engine.View() == Memory(map[], set x | x in s.allowCancel :: SignatureOf(x))
      && built.engine.run == Did(RulesOf(s, exempt), NOTHING, Allowing(Signatures(s.allowCancel)))
  {
    var stages := PolicyStages(s);
    if stages == None {
      return Refused;
    }
    built := Engine.New(s.thresholds, stages.value, exempt);
    if built == Refused {
      return;
    }
    var sigs := CancelSignatures(s);
    assert Acceptable(s) ==> forall i :: 0 <= i < |sigs| ==> s.allowCancel[i] in s.allowCancel;
    var ok := built.engine.AllowCancel(sigs);
    if !ok {
      return Refused;
    }
    SignatureSet(s.allowCancel);
  }

  lemma {:induction false} SevereStageIsLate(s: Settings, exempt: Job -> bool, dwell: Duration)
    requires Acceptable(s) && Alert.Below(StageFor(RulesOf(s, exempt).stages, dwell))
    ensures s.thresholds.window <= dwell
  {
    var stages := Effective(s).value;
    var i := Stages.StageForMeaning(stages, dwell);
    assert stages[i] in stages;
  }

  // The breach had lasted that long.
  ghost predicate Lasted(run: Run, n: nat, d: Duration)
    requires n < |run.ops| == |run.fs| && run.ops[n].Evaluating?
  {
    d <= run.ops[n].now - run.fs[n].breachedSince
  }

  lemma SevereWhenReached(c: Rules, run: Run, n: nat, window: Duration)
    requires IsRun(c, run) && n < |run.ops| && run.ops[n].Evaluating? && Alert.Below(run.fs[n].verdict)
    requires forall dwell :: Alert.Below(StageFor(c.stages, dwell)) ==> window <= dwell
    ensures Lasted(run, n, window)
  {
    Ladder.SevereStage(c, run, n);
  }

  // Under an accepted configuration nothing destructive is reported before the
  // breach has lasted a whole window.
  lemma SevereOnlyAfterWindow(s: Settings, exempt: Job -> bool, run: Run, n: nat)
    requires Acceptable(s) && IsRun(RulesOf(s, exempt), run)
    requires n < |run.ops| && run.ops[n].Evaluating? && Alert.Below(run.fs[n].verdict)
    ensures Lasted(run, n, s.thresholds.window)
  {
    forall dwell | Alert.Below(StageFor(RulesOf(s, exempt).stages, dwell)) ensures s.thresholds.window <= dwell {
      SevereStageIsLate(s, exempt, dwell);
    }
    SevereWhenReached(RulesOf(s, exempt), run, n, s.thresholds.window);
  }

  // Under an accepted configuration the walk over the stages never says less
  // than Watching.
  lemma StagesNeverHealthy(s: Settings, exempt: Job -> bool, dwell: Duration)
    requires Acceptable(s)
    ensures StageFor(RulesOf(s, exempt).stages, dwell) != Healthy
  {
    var stages := Effective(s).value;
    var i := Stages.StageForMeaning(stages, dwell);
    ParsedMembers(s.stages);
    if i != -1 && s.stages != [] {
      assert s.stages[i] in s.stages;
    }
  }

  // What is shipped: nothing is touched, and the evidence asked for is twenty
  // minutes below fifteen percent.
  lemma DefaultsAre()
    ensures !DEFAULT_SETTINGS.enforce && DEFAULT_SETTINGS.interval == 120_000_000_000 && DEFAULT_SETTINGS.allowCancel == ["idle"]
    ensures var t := DEFAULT_SETTINGS.thresholds;
      && t.utilPct == 15.0 && 20.0 * t.memHeldFraction == 1.0 && t.idlePowerWatts == 60.0
      && t.window == 1_200_000_000_000 && t.warmup == 900_000_000_000 && t.minSamples == 8 && t.maxSampleGap == 180_000_000_000
  {
  }

  lemma DefaultsAreAcceptable()
    ensures Acceptable(DEFAULT_SETTINGS)
  {
  }

  lemma ParsedPush(stages: seq<ConfigStage>, x: ConfigStage, rest: seq<Stage>, v: Verdict)
    requires Parsed(stages) == Some(rest) && ParseVerdict(x.verdict) == Some(v)
    ensures Parsed(stages + [x]) == Some(rest + [Stage(x.after, v)])
  {
    assert (stages + [x])[..|stages|] == stages;
  }

  const OUT_OF_STEP := DEFAULT_SETTINGS.(stages := [ConfigStage(20 * MINUTE, "drain"), ConfigStage(30 * MINUTE, "alert")])

  // The validator does not ask for stages that are in step: these it accepts,
  // and a breach of half an hour calls for less than one of twenty minutes.
  lemma AcceptableCanDrop()
    ensures Acceptable(OUT_OF_STEP)
    ensures !Stages.NeverDrops(Effective(OUT_OF_STEP).value)
  {
    OutOfStepParsed();
    var first, second := Stage(20 * MINUTE, Drain), Stage(30 * MINUTE, Alert);
    assert Effective(OUT_OF_STEP).value == [first, second];
    LowerStageDrops(first, second);
    OutOfStepIsAccepted([first, second]);
  }

  // ---- The rules, written as what is refused ----

  predicate SevereStage(x: ConfigStage) {
    ParseVerdict(x.verdict) == Some(Drain) || ParseVerdict(x.verdict) == Some(Cancel)
  }

  lemma LateByIndex(written: seq<ConfigStage>, stages: seq<Stage>, window: Duration)
    requires |written| == |stages|
    requires forall i :: 0 <= i < |stages| ==> stages[i].after == written[i].after && (Alert.Below(stages[i].verdict) <==> SevereStage(written[i]))
    ensures (forall x :: x in stages ==> Alert.Below(x.verdict) ==> window <= x.after) <==>
      forall x :: x in written && SevereStage(x) ==> window <= x.after
  {
    assert (forall x :: x in stages ==> Alert.Below(x.verdict) ==> window <= x.after) <==>
      forall i :: 0 <= i < |stages| && Alert.Below(stages[i].verdict) ==> window <= stages[i].after;
    assert (forall x :: x in written && SevereStage(x) ==> window <= x.after) <==>
      forall i :: 0 <= i < |written| && SevereStage(written[i]) ==> window <= written[i].after;
  }

  lemma EffectiveIsLate(s: Settings)
    requires forall x :: x in s.stages ==> StageAcceptable(x)
    ensures Effective(s).Some?
    ensures (forall x :: x in Effective(s).value ==> Alert.Below(x.verdict) ==> s.thresholds.window <= x.after) <==>
      && (s.stages == [] ==> s.thresholds.window <= 60 * MINUTE)
      && forall x :: x in s.stages && SevereStage(x) ==> s.thresholds.window <= x.after
  {
    ParsedMembers(s.stages);
    var stages := Effective(s).value;
    if s.stages == [] {
      assert DEFAULT_STAGES[1] in stages;
    } else {
      LateByIndex(s.stages, stages, s.thresholds.window);
    }
  }

  // Settings are refused exactly if one of these things is wrong with them.
  lemma RefusedExactly(s: Settings)
    ensures var t := s.thresholds;
      !Acceptable(s) <==>
        || s.interval <= 0
        || t.utilPct <= 0.0 || 100.0 < t.utilPct
        || t.memHeldFraction < 0.0 || 1.0 < t.memHeldFraction
        || t.idlePowerWatts < 0.0
        || t.window <= 0 || t.warmup < 0 || t.minSamples < 1
        || t.maxSampleGap <= s.interval || t.window <= t.maxSampleGap
        || t.window < Wrapped(t.minSamples * s.interval)
        || (exists x :: x in s.stages && !StageAcceptable(x))
        || (s.stages == [] && 60 * MINUTE < t.window)
        || (exists x :: x in s.stages && SevereStage(x) && x.after < t.window)
        || (exists x :: x in s.allowCancel && x != "idle" && x != "hung")
  {
    if forall x :: x in s.stages ==> StageAcceptable(x) {
      EffectiveIsLate(s);
    }
  }

  // An acceptable stage says alert, drain or cancel, in any case and with any
  // space around it, and nothing else.
  lemma AcceptableWords(x: ConfigStage)
    ensures StageAcceptable(x) <==> 0 <= x.after && Text.ToLower(Text.Trim(x.verdict)) in ["alert", "drain", "cancel"]
  {
    var word, words := Text.ToLower(Text.Trim(x.verdict)), ["alert", "drain", "cancel"];
    assert words[0] in words && words[1] in words && words[2] in words;
  }

  lemma WordsMean(s: string)
    ensures var word := Text.ToLower(Text.Trim(s));
      && (word == "alert" ==> ParseVerdict(s) == Some(Alert))
      && (word == "drain" ==> ParseVerdict(s) == Some(Drain))
      && (word == "cancel" ==> ParseVerdict(s) == Some(Cancel))
  {
  }

  // ---- No stages written ----

  const HOUR: Duration := 3_600_000_000_000

  lemma DefaultStagesAre()
    ensures Stages.Sorted(DEFAULT_STAGES) == DEFAULT_STAGES
  {
    var first, second := Stage(0, Alert), Stage(60 * MINUTE, Drain);
    assert DEFAULT_STAGES == [first, second] && [first, second][..1] == [first] && [first][..0] == [];
    assert Stages.Sorted([]) == [] && Stages.Sorted([first]) == [first];
  }

  lemma DefaultStageFor(dwell: Duration)
    ensures StageFor(DEFAULT_STAGES, dwell) == if HOUR <= dwell then Drain else if 0 <= dwell then Alert else Watching
  {
    var first, second := Stage(0, Alert), Stage(60 * MINUTE, Drain);
    assert DEFAULT_STAGES == [first, second] && [first, second][..1] == [first] && [first][..0] == [];
    assert StageFor([first], dwell) == if 0 <= dwell then Alert else Watching;
  }

  // With no stages written, whatever the signatures allowed: no job is ever found
  // at Cancel, none above Alert before its breach has lasted an hour, and every
  // confirmed breach is at least alerted about.
  lemma DefaultsStopAtDrain(s: Settings, exempt: Job -> bool, run: Run, n: nat)
    requires s.stages == [] && IsRun(RulesOf(s, exempt), run) && n < |run.ops| && run.ops[n].Evaluating?
    ensures run.fs[n].verdict != Cancel
    ensures Alert.Below(run.fs[n].verdict) ==> run.fs[n].breachedSince + HOUR <= run.ops[n].now
    ensures run.fs[n].reason == Breach && run.fs[n].breachedSince <= run.ops[n].now ==> !run.fs[n].verdict.Below(Alert)
  {
    var c := RulesOf(s, exempt);
    DefaultStagesAre();
    DefaultStageFor(run.ops[n].now - run.fs[n].breachedSince);
    Ladder.HealthyWhen(c, run, n);
    if run.fs[n].reason == Breach {
      Ladder.SevereExactly(c, run, n);
    }
  }

  // Settings stay acceptable when their stages are replaced by acceptable ones.
  lemma OtherStages(s: Settings, written: seq<ConfigStage>, stages: seq<Stage>)
    requires Acceptable(s) && Effective(s.(stages := written)) == Some(stages)
    requires forall x :: x in written ==> StageAcceptable(x)
    requires forall x :: x in stages ==> Alert.Below(x.verdict) ==> s.thresholds.window <= x.after
    ensures Acceptable(s.(stages := written))
  {
    assert forall x :: x in written ==> StageAcceptable(x);
  }

  lemma OutOfStepIsAccepted(stages: seq<Stage>)
    requires stages == [Stage(20 * MINUTE, Drain), Stage(30 * MINUTE, Alert)] && Effective(OUT_OF_STEP) == Some(stages)
    requires forall x :: x in OUT_OF_STEP.stages ==> StageAcceptable(x)
    ensures Acceptable(OUT_OF_STEP)
  {
    DefaultsAreAcceptable();
    assert forall x :: x in stages ==> x == stages[0] || x == stages[1];
    OtherStages(DEFAULT_SETTINGS, OUT_OF_STEP.stages, stages);
  }

  lemma LowerStageDrops(first: Stage, second: Stage)
    requires first.after < second.after && second.verdict.Below(first.verdict)
    ensures !Stages.NeverDrops([first, second])
  {
    var stages := [first, second];
    assert Stages.Counts(stages, 0) && Stages.Counts(stages, 1);
    assert !Stages.InStep(stages);
    Stages.NeverDropsIff(stages);
  }

  lemma OutOfStepParsed()
    ensures Effective(OUT_OF_STEP) == Some([Stage(20 * MINUTE, Drain), Stage(30 * MINUTE, Alert)])
    ensures forall x :: x in OUT_OF_STEP.stages ==> StageAcceptable(x)
  {
    Words();
    var first, second := ConfigStage(20 * MINUTE, "drain"), ConfigStage(30 * MINUTE, "alert");
    var a, b := Stage(20 * MINUTE, Drain), Stage(30 * MINUTE, Alert);
    assert [] + [first] == [first] && [first] + [second] == [first, second];
    assert [] + [a] == [a] && [a] + [b] == [a, b];
    ParsedPush([], first, [], Drain);
    ParsedPush([first], second, [a], Alert);
    assert StageAcceptable(first) && StageAcceptable(second);
    TwoStages(first, second);
  }

  lemma TwoStages(first: ConfigStage, second: ConfigStage)
    requires StageAcceptable(first) && StageAcceptable(second)
    ensures forall x :: x in [first, second] ==> StageAcceptable(x)
  {
  }

  lemma Words()
    ensures ParseVerdict("drain") == Some(Drain) && ParseVerdict("alert") == Some(Alert)
  {
    Text.TrimIsTrimmed("drain");
    Text.TrimIsTrimmed("alert");
    assert Text.ToLower("drain") == "drain";
    assert Text.ToLower("alert") == "alert";
  }
}
